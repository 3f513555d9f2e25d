# pcilookup resolver, modelled in Dafny

`pcilookup` is a small command-line tool that looks up the names behind PCI
identifiers. Each argument has the form `vid[,did[.svid.sdid]]`, with every
field in hexadecimal. The tool parses the argument into a query of one of
three levels (vendor, device, or sub-vendor/sub-device). It then walks
vendor → device → sub-system in a PCI-ID database and prints one line per
argument: the names found, joined by `|`. The first error of any kind ends
the whole run with exit status 1.

This project models that resolver in `pcilookup.c` as pure functions:

- `clib.dfy` (`CLib`) holds the two C library routines the tool depends on.
  `Strchr` is `strchr`. `Strtol16` is `strtol(s, &end, 16)` as section
  7.22.1.4 of ISO C11 defines it in the "C" locale:
  - leading white-space is skipped;
  - an optional sign is accepted;
  - an optional `0x`/`0X` prefix is accepted, but only when a hex digit
    follows it;
  - the longest run of hex digits is read;
  - when no digit is found, the end pointer is the start of the string and
    the value is 0.

  `CString` is a character sequence without NUL, so "the end pointer is at
  the terminator" becomes "the end index is the length".
- `pcidb.dfy` (`PciDb`) holds the database as nested maps: vendor id →
  vendor (name and devices); device id → device (name and sub-systems);
  (sub-vendor id, sub-device id) → name. Each library lookup is a map
  membership test.
- `pcilookup.dfy` (`PciLookup`) models the tool itself. The `lcase_t` enum
  becomes `Level` and a parsed argument becomes `Query`. `fatal` and
  `exit(1)` become the `Err` side of a `Result`, carrying a `Failure`.
  `ParseInt` is `parse_int`. `ParseArg`, `ParseDevice` and `ParseSubIds`
  are the three stages of `parse_arg`. `Resolve` and `PrintArg` are
  `print_arg`. `ProcessArgs` and `Run` are `main` and its loop; they
  return the printed lines and the failure that ended the run.
- `parse_int_props.dfy`, `parse_arg_props.dfy` and `output_props.dfy` prove
  the properties listed below.

The grammar `vid[,did[.svid.sdid]]` reads as if every field were a plain,
non-empty hex string. The code accepts more, and the model follows the code:
- An empty field reads as 0. For example, `abcd,` is a device query for
  device 0.
- Leading white-space, a sign and a `0x` prefix are all accepted, so `-0`
  and ` 0x1f` are valid ids.
- A field that is only white-space is rejected.
- `abcd,1,` is not a device query with device 1. The device token is `1,`,
  and it fails as a bad number.
- When argument k fails (counting from 1), exactly k−1 lines are printed.

## Model

| member | source | states |
|---|---|---|
| CLib.Strchr | pcilookup.c:86 | The result is the index of the first occurrence of the character, or none exactly when the character does not occur. |
| CLib.Strtol16 | pcilookup.c:68 | The end index is 0 and the value 0 when there is no subject sequence. Otherwise the subject ends on a hex digit, and the character after it, if any, is not a hex digit. |
| PciLookup.Query.Level | pcilookup.c:36-41 | The level of a parsed query is vendor, device or sub-system, never the invalid level that `print_arg` asserts against. |
| PciLookup.ParseInt | pcilookup.c:62-76 | Success means strtol consumed the whole token and the value is in [0, 0xffff]. The only errors are "not a number", exactly when characters remain after the number and carrying the whole token, and "out of range", which carries a value below 0 or above 0xffff. |
| ParseIntProofs.ParseIntWellFormed | pcilookup.c:62-76 | Blanks, an optional sign, an optional 0x/0X and at least one hex digit always form a complete number. The result is that signed value when it is in [0, 0xffff], and the out-of-range error otherwise. |
| ParseIntProofs.StrtolWholeShape | pcilookup.c:68 | A string strtol consumes completely, with at least one digit, splits into blanks, a sign, a prefix and hex digits, and its value is the signed value of those digits. |
| ParseIntProofs.ParseIntConsumedShape | pcilookup.c:68-70 | Conversely, a token that passes the end-of-number check is either empty (and reads as 0) or has exactly that shape. |
| ParseIntProofs.ParseIntRejectsForeignChar | pcilookup.c:68-70 | A token holding any character other than white-space, a sign, x/X or a hex digit is "not a number". |
| ParseIntProofs.ParseIntTrailingGarbage | pcilookup.c:68-70 | `12g4` is "not a number". |
| ParseIntProofs.ParseIntTooLarge | pcilookup.c:72-73 | `10000` is out of range, with value 0x10000. |
| ParseIntProofs.ParseIntEmpty | pcilookup.c:68-70 | The empty token parses as 0. |
| ParseIntProofs.ParseIntBlank | pcilookup.c:68-70 | A non-empty token of white-space alone is "not a number". |
| ParseIntProofs.ParseIntHex4 | pcilookup.c:62-76 | For every id v, the four-digit lowercase rendering of v (as `%04x` prints it) parses back to v. |
| PciLookup.ParseArg | pcilookup.c:81-95 | Without a `,` a parse can only give a vendor query. With a `,` a parse never gives a vendor query. |
| PciLookup.ParseDevice | pcilookup.c:95-105 | A parse after the comma keeps the vendor id and never gives a vendor query. Without a `.` it gives a device query; with a `.` it gives a sub-system query. |
| PciLookup.ParseSubIds | pcilookup.c:105-115 | Success is a sub-system query with the given vendor and device. The missing-sub-device error happens exactly when no `.` is left. |
| ParseArgProofs.ParseArgVendor | pcilookup.c:86-90 | With no `,`, the result is ParseInt of the whole argument as a vendor query, or its error. |
| ParseArgProofs.ParseArgDevice | pcilookup.c:93-100 | For `v,d` with no `,` in v and no `.` in d, the result is the first error of ParseInt(v), ParseInt(d), or else the device query of both values. |
| ParseArgProofs.ParseArgMissingSubDevice | pcilookup.c:103-109 | For `v,d.s` with no further `.`, the result is the first error of v or d, or else the missing-sub-device error carrying s. |
| ParseArgProofs.ParseArgSubVD | pcilookup.c:103-115 | For `v,d.s.t` with no `.` in d or s, the result is the first error among v, d, s, t in that order, or else the sub-system query of the four values. t may hold further dots. |
| ParseArgProofs.ParseArgLevel | pcilookup.c:86-116 | The level of a parsed query is the one the separators give: no `,` gives vendor; after the first `,`, no `.` gives device and two or more give sub-system. A `,` followed by exactly one `.` never parses. |
| ParseArgProofs.ParseArgRender | pcilookup.c:81-116 | Every query, written with `%04x` fields and the separators, parses back to itself. |
| ParseArgProofs.ParseArgDotWithoutComma | pcilookup.c:86-90 | A `.` before any `,` stays in the vendor token, so the argument is "not a number" (as for `1234.5678`). |
| ParseArgProofs.ParseArgEmptyDevice | pcilookup.c:96-99 | `v,` with a good vendor token is a device query for device 0. |
| ParseArgProofs.ParseArgSecondComma | pcilookup.c:96-99 | A second `,` stays in the device token, which is then "not a number" (as for `abcd,1,`). |
| ParseArgProofs.ParseArgThirdDot | pcilookup.c:111-114 | A third `.` lands in the sub-device token, which is then "not a number". |
| PciLookup.Resolve | pcilookup.c:129-150 | The lookup succeeds if and only if every id the query's level asks for is in the database (`Found`). A missing vendor, device or sub-system gives the error for that stage, carrying the ids that missed. Success gives one, two or three names by level: the vendor's name, then the device's name within that vendor, then the sub-system's name within that device. |
| PciLookup.PrintArg | pcilookup.c:130-161 | A line is printed if and only if every id the query's level asks for is in the database. The printed line is the vendor name, then a pipe and the device name if and only if the query is not vendor-level, then a pipe and the sub-system name if and only if it is sub-system-level, then a newline. A lookup miss prints nothing and is the error. |
| OutputProofs.SplitJoin | pcilookup.c:152-161 | Names without a pipe character, joined by pipes, split back into the same names. |
| OutputProofs.PrintArgFields | pcilookup.c:151-161 | When no database name holds a pipe character, a printed line ends in a newline, and the rest splits at the pipes into exactly the resolved names, as many as the level asks for. |
| PciLookup.ProcessArg | pcilookup.c:180-184 | A line is printed only when the argument parsed and resolved. A parse error is the error for that argument. An argument that parses has exactly the result of printing its query: its line, or the lookup miss as its error. |
| PciLookup.ProcessArgs | pcilookup.c:180-184 | Lines are printed in argument order, line i for argument i, and each is that argument's result. The run is complete exactly when every argument got a line. Otherwise the failure is that of the first argument without a line. |
| OutputProofs.ProcessArgsAllResolved | pcilookup.c:180-184 | When every argument resolves, there is no failure and exactly one line per argument, in order. |
| OutputProofs.ProcessArgsFirstFailure | pcilookup.c:180-184 | When argument k (from 0) is the first failure, exactly k lines are printed (those of the earlier arguments), and the run ends with argument k's error. |
| PciLookup.Run | pcilookup.c:171-178 | With no argument the run fails with the usage error and prints nothing. If the database did not open it fails with the open error and prints nothing. Exit status 0 means one line per argument, line i being argument i's line, in argument order. |
| OutputProofs.RunFirstFailure | pcilookup.c:165-190 | When the database opened and argument k (from 0) is the first failure, `main` prints exactly the k lines of the earlier arguments and ends with argument k's error. |
| OutputProofs.ProcessArgFound | pcilookup.c:180-184 | An argument that parses to a query whose ids are all in the database prints the line of that query's names. |
| OutputProofs.RunAllResolved | pcilookup.c:165-190 | When the database opened and every argument resolves, `main` exits 0 having printed exactly one line per argument, line i being argument i's line. |
| OutputProofs.RunExitStatus | pcilookup.c:165-190 | The exit status is 0 if and only if there are arguments, the database opened and every argument resolved. |

## Left out

- `pcigen.c` is not part of this model. It is an unfinished generator that does not compile and has no behaviour to model.
- The `pcidb` library is not part of this model, including its on-disk format, `pcidb_open`/`pcidb_close` and the name accessors. The database is an immutable map, and the result of opening it is the `Option<Database>` argument of `Run`.
- Standard output and standard error are not modelled as streams. Output is the list of lines. A diagnostic is a `Failure` value; its wording and its `%04x`/`%ld` formatting are not modelled.
- The `errno` text of an open failure is not modelled.
- `ParseInt`: the out-of-range error carries the exact value of the digits. The C code carries `strtol`'s result, which saturates at `LONG_MAX`/`LONG_MIN` for very long numbers. Accepting or rejecting a token is the same either way, because both values are out of range.
- `Strtol16`: only the "C" locale is modelled. Other locales may accept other white-space.
- The parsed ids live in process-wide globals in the C code, and a field beyond the query's level keeps the previous argument's value. `print_arg` never reads those fields, so `Query` simply does not have them.
- `assert(g_case != L_INVALID)` in `print_arg` is not modelled as a run-time assertion. A `Query` has no invalid level, so the assertion always holds.
- The `(uint16_t)` cast in `parse_int` is not modelled, because it only applies to values already in range, where it changes nothing.
- The name accessors `pcidb_vendor_name`, `pcidb_device_name` and `pcidb_subvd_name` are assumed to return a non-NULL name (a `string` in the model). The `!= NULL` tests before each `printf` in `print_arg` then reduce to the level tests.
- Database names are `string`s and may in the model hold a NUL, which the C accessors never return and `printf("%s")` would cut short. A model database is assumed to hold NUL-free names, as the real one does; nothing depends on it.
- Command-line arguments and database names are sequences of Dafny `char`s (Unicode scalar values), not C byte strings, so byte sequences that are not valid UTF-8 are not represented. Acceptance is unaffected: the separators, the blanks and the hex digits are all ASCII, and in the "C" locale no other byte is a blank or a hex digit.
- `main`'s `ret` variable is always 0, so a complete run exits with 0.
