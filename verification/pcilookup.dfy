/** The PCI identifier resolver: parse each argument of the form
    `vid[,did[.svid.sdid]]` into a query, look the query up in the
    database, and print one `|`-joined line of names per argument, stopping
    at the first argument that fails. */
module PciLookup {
  import opened Wrappers
  import opened CLib
  import opened PciDb

  /** The query levels of the C enum `lcase_t`. `LInvalid` is the level
      before an argument has been classified; no parsed query carries it. */
  datatype Level = LVendor | LDevice | LSubVD | LInvalid

  /** A parsed argument. Each level holds exactly the ids it looks up. */
  datatype Query =
    | VendorQuery(vid: Id)
    | DeviceQuery(vid: Id, did: Id)
    | SubVDQuery(vid: Id, did: Id, svid: Id, sdid: Id)
  {
    function Level(): (l: Level)
      ensures l != LInvalid
    {
      match this
      case VendorQuery(_) => LVendor
      case DeviceQuery(_, _) => LDevice
      case SubVDQuery(_, _, _, _) => LSubVD
    }
  }

  /** Every way the program ends with exit status 1. */
  datatype Failure =
    | Usage                                // no argument at all
    | OpenFailed                           // the database could not be opened
    | NotANumber(token: string)            // characters left after the number
    | OutOfRange(value: int)               // a number outside [0, 0xffff]
    | MissingSubDevice(rest: string)       // a sub-vendor id without a sub-device id
    | UnknownVendor(vid: Id)
    | UnknownDevice(did: Id)
    | UnknownSubVD(svid: Id, sdid: Id)

  /** `parse_int`: one token as a 16-bit id. The whole token must be consumed
      by `strtol`, and the value must lie in [0, 0xffff]. */
  function ParseInt(tok: CString): (r: Result<Id, Failure>)
    ensures r.Ok? ==> Strtol16(tok) == Conversion(r.value, |tok|)
    ensures r.Err? ==> r.error.NotANumber? || r.error.OutOfRange?
    ensures r.Err? && r.error.NotANumber? <==> Strtol16(tok).end != |tok|
    ensures r.Err? && r.error.NotANumber? ==> r.error.token == tok
    ensures r.Err? && r.error.OutOfRange? ==> r.error.value < 0 || 0xffff < r.error.value
  {
    var c := Strtol16(tok);
    if c.end != |tok| then Err(NotANumber(tok))
    else if c.value > 0xffff || c.value < 0 then Err(OutOfRange(c.value))
    else Ok(c.value)
  }

  /** The level the separators alone assign to an argument: no `,` means
      vendor level; after the first `,`, no `.` means device level, exactly
      one `.` is malformed, and two or more mean the sub-system level. */
  function SeparatorLevel(arg: seq<char>): Level {
    match Strchr(arg, ',')
    case None => LVendor
    case Some(c) =>
      var dots := multiset(arg[c + 1..])['.'];
      if dots == 0 then LDevice else if dots == 1 then LInvalid else LSubVD
  }

  /** `parse_arg`: split at the first `,`. Without one the whole argument
      is the vendor id; otherwise the vendor token is parsed before the rest
      is looked at. */
  function ParseArg(arg: CString): (r: Result<Query, Failure>)
    ensures ',' !in arg ==> r.Err? || r.value.VendorQuery?
    ensures ',' in arg ==> r.Err? || !r.value.VendorQuery?
  {
    match Strchr(arg, ',')
    case None =>
      var vid :- ParseInt(arg);
      Ok(VendorQuery(vid))
    case Some(c) =>
      var vid :- ParseInt(arg[..c]);
      ParseDevice(vid, arg[c + 1..])
  }

  /** The part of `parse_arg` after the `,`: split at the first `.`. Without
      one the remainder is the device id; otherwise the device token is
      parsed before the sub-ids are looked at. */
  function ParseDevice(vid: Id, rest: CString): (r: Result<Query, Failure>)
    ensures r.Ok? ==> !r.value.VendorQuery? && r.value.vid == vid
    ensures '.' !in rest ==> r.Err? || r.value.DeviceQuery?
    ensures '.' in rest ==> r.Err? || r.value.SubVDQuery?
  {
    match Strchr(rest, '.')
    case None =>
      var did :- ParseInt(rest);
      Ok(DeviceQuery(vid, did))
    case Some(p) =>
      var did :- ParseInt(rest[..p]);
      ParseSubIds(vid, did, rest[p + 1..])
  }

  /** The last part of `parse_arg`: the sub-vendor id runs up to the next
      `.` and the sub-device id is everything after it. No `.` is fatal. */
  function ParseSubIds(vid: Id, did: Id, tail: CString): (r: Result<Query, Failure>)
    ensures r.Ok? ==> r.value.SubVDQuery? && r.value.vid == vid && r.value.did == did
    ensures '.' !in tail <==> r == Err(MissingSubDevice(tail))
  {
    match Strchr(tail, '.')
    case None =>
      Err(MissingSubDevice(tail))
    case Some(s) =>
      var svid :- ParseInt(tail[..s]);
      var sdid :- ParseInt(tail[s + 1..]);
      Ok(SubVDQuery(vid, did, svid, sdid))
  }

  /** How many names a resolved query of each level yields. */
  function Depth(l: Level): nat {
    match l
    case LVendor => 1
    case LDevice => 2
    case LSubVD => 3
    case LInvalid => 0
  }

  /** Every id the query's level asks for is present in the database: the
      vendor, then the device within it, then the sub-system within that. */
  predicate Found(db: Database, q: Query) {
    && q.vid in db
    && (!q.VendorQuery? ==> q.did in db[q.vid].devices)
    && (q.SubVDQuery? ==> (q.svid, q.sdid) in db[q.vid].devices[q.did].subsystems)
  }

  /** The lookups of `print_arg`: vendor, then device within the vendor, then
      sub-system within the device, each a fatal miss when absent. */
  function Resolve(db: Database, q: Query): (r: Result<seq<string>, Failure>)
    ensures r.Ok? <==> Found(db, q)
    ensures q.vid !in db ==> r == Err(UnknownVendor(q.vid))
    ensures q.vid in db && !q.VendorQuery? && q.did !in db[q.vid].devices ==>
      r == Err(UnknownDevice(q.did))
    ensures && q.vid in db && q.SubVDQuery? && q.did in db[q.vid].devices
            && (q.svid, q.sdid) !in db[q.vid].devices[q.did].subsystems
            ==> r == Err(UnknownSubVD(q.svid, q.sdid))
    ensures r.Ok? ==> |r.value| == Depth(q.Level()) && q.vid in db && r.value[0] == db[q.vid].name
    ensures r.Ok? && !q.VendorQuery? ==>
      q.did in db[q.vid].devices && r.value[1] == db[q.vid].devices[q.did].name
    ensures r.Ok? && q.SubVDQuery? ==>
      && q.did in db[q.vid].devices
      && (q.svid, q.sdid) in db[q.vid].devices[q.did].subsystems
      && r.value[2] == db[q.vid].devices[q.did].subsystems[(q.svid, q.sdid)]
  {
    if q.vid !in db then Err(UnknownVendor(q.vid))
    else
      var v := db[q.vid];
      if q.VendorQuery? then Ok([v.name])
      else if q.did !in v.devices then Err(UnknownDevice(q.did))
      else
        var d := v.devices[q.did];
        if q.DeviceQuery? then Ok([v.name, d.name])
        else if (q.svid, q.sdid) !in d.subsystems then Err(UnknownSubVD(q.svid, q.sdid))
        else Ok([v.name, d.name, d.subsystems[(q.svid, q.sdid)]])
  }

  /** The names separated by `|`. */
  function Join(names: seq<string>): string
  {
    if |names| == 0 then ""
    else if |names| == 1 then names[0]
    else names[0] + "|" + Join(names[1..])
  }

  /** One output line: the joined names and a newline. */
  function Line(names: seq<string>): string
  {
    Join(names) + "\n"
  }

  /** `print_arg`: the line printed for a query, or the fatal miss. */
  function PrintArg(db: Database, q: Query): (r: Result<string, Failure>)
    ensures r.Ok? <==> Found(db, q)
    ensures r.Err? ==> r.error == Resolve(db, q).error
    ensures r.Ok? ==>
      r.value ==
           db[q.vid].name
           + (if q.VendorQuery? then "" else "|" + db[q.vid].devices[q.did].name)
           + (if q.SubVDQuery? then "|" + db[q.vid].devices[q.did].subsystems[(q.svid, q.sdid)] else "")
           + "\n"
  {
    match Resolve(db, q)
    case Err(e) => Err(e)
    case Ok(names) =>
      assert |names| == 2 ==> Join(names) == names[0] + "|" + names[1] by {
        if |names| == 2 { assert Join(names[1..]) == names[1]; }
      }
      assert |names| == 3 ==> Join(names) == names[0] + "|" + names[1] + "|" + names[2] by {
        if |names| == 3 {
          assert Join(names[1..][1..]) == names[2];
          assert Join(names[1..]) == names[1] + "|" + names[2];
        }
      }
      Ok(Line(names))
  }

  /** One iteration of the loop in `main`: parse the argument, then print
      it. */
  function ProcessArg(db: Database, arg: CString): (r: Result<string, Failure>)
    ensures ParseArg(arg).Err? ==> r == Err(ParseArg(arg).error)
    ensures ParseArg(arg).Ok? ==> r == PrintArg(db, ParseArg(arg).value)
  {
    var q :- ParseArg(arg);
    PrintArg(db, q)
  }

  /** What one run leaves behind: the lines on standard output, in order,
      and the failure that ended it, if any. */
  datatype Outcome = Outcome(lines: seq<string>, failure: Option<Failure>)

  /** The exit status: 0 after a complete run, 1 after any fatal error. */
  function ExitStatus(o: Outcome): int {
    if o.failure.None? then 0 else 1
  }

  /** The arguments in order, one line each, up to the first failure. */
  function ProcessArgs(db: Database, args: seq<CString>): (o: Outcome)
    ensures |o.lines| <= |args|
    ensures forall i :: 0 <= i < |o.lines| ==> ProcessArg(db, args[i]) == Ok(o.lines[i])
    ensures o.failure.None? <==> |o.lines| == |args|
    ensures o.failure.Some? ==> ProcessArg(db, args[|o.lines|]) == Err(o.failure.value)
  {
    if |args| == 0 then Outcome([], None)
    else match ProcessArg(db, args[0])
      case Err(e) => Outcome([], Some(e))
      case Ok(line) =>
        var rest := ProcessArgs(db, args[1..]);
        assert forall i :: 0 <= i < |rest.lines| ==> args[1..][i] == args[i + 1];
        Outcome([line] + rest.lines, rest.failure)
  }

  /** `main`: no argument is a usage error; then the database must open
      (`db` is what opening it produced); then every argument is processed.
      `args` excludes the program name. */
  function Run(args: seq<CString>, db: Option<Database>): (o: Outcome)
    ensures |args| == 0 ==> o == Outcome([], Some(Usage))
    ensures 0 < |args| && db.None? ==> o == Outcome([], Some(OpenFailed))
    ensures ExitStatus(o) == 0 ==> db.Some? && |o.lines| == |args| > 0
    ensures ExitStatus(o) == 0 ==>
      forall i :: 0 <= i < |args| ==> ProcessArg(db.value, args[i]) == Ok(o.lines[i])
  {
    if |args| == 0 then Outcome([], Some(Usage))
    else if db.None? then Outcome([], Some(OpenFailed))
    else ProcessArgs(db.value, args)
  }
}
