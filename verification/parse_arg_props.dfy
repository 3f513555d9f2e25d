/** How `parse_arg` cuts an argument: at the first `,`, then at the first
    `.` after it, then at the next `.`; the sub-device token is everything
    after that. The level of a parsed argument is fixed by these separators,
    and the canonical `%04x` rendering of a query parses back to it. */
module ParseArgProofs {
  import opened Wrappers
  import opened CLib
  import opened PciDb
  import opened PciLookup
  import opened ParseIntProofs

  /** The error of the first failing token, else the value built from
      them: the order in which `parse_arg` parses and gives up. */
  function FirstOk2(a: Result<Id, Failure>, b: Result<Id, Failure>): Result<(Id, Id), Failure> {
    if a.Err? then Err(a.error) else if b.Err? then Err(b.error) else Ok((a.value, b.value))
  }

  /** With no `,`, the whole argument is the vendor token. A `.` there is
      not a separator, so `1234.5678` is a bad number. */
  lemma ParseArgVendor(v: CString)
    requires ',' !in v
    ensures ParseArg(v) ==
      if ParseInt(v).Err? then Err(ParseInt(v).error) else Ok(VendorQuery(ParseInt(v).value))
  {
  }

  /** With one `,` and no `.` after it, the argument is a device query. The
      device token runs to the end, later commas included. */
  lemma ParseArgDevice(v: CString, d: CString)
    requires ',' !in v && '.' !in d
    ensures ParseArg(v + "," + d) ==
      match FirstOk2(ParseInt(v), ParseInt(d))
      case Err(e) => Err(e)
      case Ok((vid, did)) => Ok(DeviceQuery(vid, did))
  {
    var arg: CString := v + "," + d;
    assert arg[|v|] == ',';
    assert arg[..|v|] == v && arg[|v| + 1..] == d;
    assert Strchr(arg, ',') == Some(|v|);
  }

  /** A `,` followed by exactly one `.`: a sub-vendor id with no sub-device
      id. Once the vendor and device tokens parse, this is fatal. */
  lemma ParseArgMissingSubDevice(v: CString, d: CString, sv: CString)
    requires ',' !in v && '.' !in d && '.' !in sv
    ensures ParseArg(v + "," + d + "." + sv) ==
      match FirstOk2(ParseInt(v), ParseInt(d))
      case Err(e) => Err(e)
      case Ok(_) => Err(MissingSubDevice(sv))
  {
    var rest: CString := d + "." + sv;
    var arg: CString := v + "," + rest;
    assert arg == v + "," + d + "." + sv;
    assert arg[|v|] == ',';
    assert arg[..|v|] == v && arg[|v| + 1..] == rest;
    assert Strchr(arg, ',') == Some(|v|);
    assert rest[|d|] == '.';
    assert rest[..|d|] == d && rest[|d| + 1..] == sv;
    assert Strchr(rest, '.') == Some(|d|);
  }

  /** The sub-id stage splits at its first `.`. */
  lemma ParseSubIdsSplit(vid: Id, did: Id, sv: CString, sd: CString)
    requires '.' !in sv
    ensures ParseSubIds(vid, did, sv + "." + sd) ==
      match FirstOk2(ParseInt(sv), ParseInt(sd))
      case Err(e) => Err(e)
      case Ok((svid, sdid)) => Ok(SubVDQuery(vid, did, svid, sdid))
  {
    var tail: CString := sv + "." + sd;
    assert tail[|sv|] == '.';
    assert tail[..|sv|] == sv && tail[|sv| + 1..] == sd;
    assert Strchr(tail, '.') == Some(|sv|);
  }

  /** The device stage splits at its first `.` and hands the rest on. */
  lemma ParseDeviceSplit(vid: Id, d: CString, tail: CString)
    requires '.' !in d
    ensures ParseDevice(vid, d + "." + tail) ==
      if ParseInt(d).Err? then Err(ParseInt(d).error) else ParseSubIds(vid, ParseInt(d).value, tail)
  {
    var rest: CString := d + "." + tail;
    assert rest[|d|] == '.';
    assert rest[..|d|] == d && rest[|d| + 1..] == tail;
    assert Strchr(rest, '.') == Some(|d|);
  }

  /** The vendor stage splits at the first `,` and hands the rest on. */
  lemma ParseArgSplit(v: CString, rest: CString)
    requires ',' !in v
    ensures ParseArg(v + "," + rest) ==
      if ParseInt(v).Err? then Err(ParseInt(v).error) else ParseDevice(ParseInt(v).value, rest)
  {
    var arg: CString := v + "," + rest;
    assert arg[|v|] == ',';
    assert arg[..|v|] == v && arg[|v| + 1..] == rest;
    assert Strchr(arg, ',') == Some(|v|);
  }

  /** A `,` followed by two `.`: a full sub-system query. The sub-device
      token is everything after the second `.`, further dots included. */
  lemma ParseArgSubVD(v: CString, d: CString, sv: CString, sd: CString)
    requires ',' !in v && '.' !in d && '.' !in sv
    ensures ParseArg(v + "," + d + "." + sv + "." + sd) ==
      match FirstOk2(ParseInt(v), ParseInt(d))
      case Err(e) => Err(e)
      case Ok((vid, did)) =>
        match FirstOk2(ParseInt(sv), ParseInt(sd))
        case Err(e) => Err(e)
        case Ok((svid, sdid)) => Ok(SubVDQuery(vid, did, svid, sdid))
  {
    var tail: CString := sv + "." + sd;
    var rest: CString := d + "." + tail;
    assert v + "," + rest == v + "," + d + "." + sv + "." + sd;
    ParseArgSplit(v, rest);
    if ParseInt(v).Ok? {
      ParseDeviceSplit(ParseInt(v).value, d, tail);
      if ParseInt(d).Ok? {
        ParseSubIdsSplit(ParseInt(v).value, ParseInt(d).value, sv, sd);
      }
    }
  }

  /** After the first occurrence of `c` there is one `c` fewer. */
  lemma CountAfterFirst(s: seq<char>, c: char, p: nat)
    requires p < |s| && s[p] == c
    requires forall k :: 0 <= k < p ==> s[k] != c
    ensures multiset(s)[c] == 1 + multiset(s[p + 1..])[c]
  {
    assert s == s[..p] + [s[p]] + s[p + 1..];
    assert c !in s[..p];
    assert multiset(s) == multiset(s[..p]) + multiset([s[p]]) + multiset(s[p + 1..]);
  }

  /** The level of a parsed argument is the one its separators give it, and
      an argument whose separators make no level is never parsed. */
  lemma ParseArgLevel(arg: CString)
    ensures ParseArg(arg).Ok? ==> ParseArg(arg).value.Level() == SeparatorLevel(arg)
    ensures SeparatorLevel(arg) == LInvalid ==> ParseArg(arg).Err?
  {
    match Strchr(arg, ',')
    case None =>
    case Some(c) =>
      var rest: CString := arg[c + 1..];
      match Strchr(rest, '.')
      case None =>
        assert multiset(rest)['.'] == 0;
      case Some(p) =>
        CountAfterFirst(rest, '.', p);
        var tail: CString := rest[p + 1..];
        match Strchr(tail, '.')
        case None =>
          assert multiset(tail)['.'] == 0;
        case Some(s) =>
          CountAfterFirst(tail, '.', s);
  }

  /** The canonical text of a query: each id as `%04x` prints it, joined by
      the separators `parse_arg` splits at. */
  function Render(q: Query): CString {
    match q
    case VendorQuery(v) => Hex4(v)
    case DeviceQuery(v, d) => Hex4(v) + "," + Hex4(d)
    case SubVDQuery(v, d, sv, sd) => Hex4(v) + "," + Hex4(d) + "." + Hex4(sv) + "." + Hex4(sd)
  }

  /** Every query survives a trip through its canonical text. */
  lemma ParseArgRender(q: Query)
    ensures ParseArg(Render(q)) == Ok(q)
  {
    ParseIntHex4(q.vid);
    match q
    case VendorQuery(v) =>
      ParseArgVendor(Hex4(v));
    case DeviceQuery(v, d) =>
      ParseIntHex4(d);
      ParseArgDevice(Hex4(v), Hex4(d));
    case SubVDQuery(v, d, sv, sd) =>
      ParseIntHex4(d);
      ParseIntHex4(sv);
      ParseIntHex4(sd);
      ParseArgSubVD(Hex4(v), Hex4(d), Hex4(sv), Hex4(sd));
  }

  /** A `.` before any `,` stays inside the vendor token, which then is a
      bad number: `1234.5678` fails. */
  lemma ParseArgDotWithoutComma(v: CString, i: nat)
    requires ',' !in v && i < |v| && v[i] == '.'
    ensures ParseArg(v) == Err(NotANumber(v))
  {
    ParseArgVendor(v);
    ParseIntRejectsForeignChar(v, i);
  }

  /** An empty device token reads as device 0: `abcd,` is a device
      query. */
  lemma ParseArgEmptyDevice(v: CString)
    requires ',' !in v && ParseInt(v).Ok?
    ensures ParseArg(v + ",") == Ok(DeviceQuery(ParseInt(v).value, 0))
  {
    ParseIntEmpty();
    ParseArgDevice(v, "");
    assert v + "," + "" == v + ",";
  }

  /** A second `,` stays in the device token, which then is a bad number:
      `abcd,1,` fails on `1,`. */
  lemma ParseArgSecondComma(v: CString, d: CString, i: nat)
    requires ',' !in v && '.' !in d && ParseInt(v).Ok?
    requires i < |d| && d[i] == ','
    ensures ParseArg(v + "," + d) == Err(NotANumber(d))
  {
    ParseIntRejectsForeignChar(d, i);
    ParseArgDevice(v, d);
  }

  /** A third `.` lands in the sub-device token, which then is a bad
      number. */
  lemma ParseArgThirdDot(v: CString, d: CString, sv: CString, sd: CString, i: nat)
    requires ',' !in v && '.' !in d && '.' !in sv
    requires ParseInt(v).Ok? && ParseInt(d).Ok? && ParseInt(sv).Ok?
    requires i < |sd| && sd[i] == '.'
    ensures ParseArg(v + "," + d + "." + sv + "." + sd) == Err(NotANumber(sd))
  {
    ParseIntRejectsForeignChar(sd, i);
    ParseArgSubVD(v, d, sv, sd);
  }
}
