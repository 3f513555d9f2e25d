/** What the resolver prints: each line splits back at `|` into exactly the
    names it resolved, and a run prints one line per argument up to the
    first failing one, after which it exits with status 1. */
module OutputProofs {
  import opened Wrappers
  import opened CLib
  import opened PciDb
  import opened PciLookup

  /** The fields of a `|`-separated string, as a reader of the output would
      cut it. */
  function Split(s: string): (fields: seq<string>)
    ensures 0 < |fields|
    decreases |s|
  {
    match Strchr(s, '|')
    case None => [s]
    case Some(i) => [s[..i]] + Split(s[i + 1..])
  }

  /** No name in the database holds the `|` separator. */
  predicate PipeFree(db: Database) {
    forall vid :: vid in db ==>
      && '|' !in db[vid].name
      && forall did :: did in db[vid].devices ==>
        && '|' !in db[vid].devices[did].name
        && forall ids :: ids in db[vid].devices[did].subsystems ==>
          '|' !in db[vid].devices[did].subsystems[ids]
  }

  /** Splitting cuts at the first `|`. */
  lemma SplitFirst(a: string, b: string)
    requires '|' !in a
    ensures Split(a + "|" + b) == [a] + Split(b)
  {
    var s := a + "|" + b;
    assert s[|a|] == '|';
    assert forall k :: 0 <= k < |a| ==> s[k] == a[k];
    assert Strchr(s, '|') == Some(|a|);
    assert s[..|a|] == a && s[|a| + 1..] == b;
  }

  /** Joining names without `|` and splitting the result gives the names
      back. */
  lemma {:induction false} SplitJoin(names: seq<string>)
    requires 0 < |names|
    requires forall i :: 0 <= i < |names| ==> '|' !in names[i]
    ensures Split(Join(names)) == names
    decreases |names|
  {
    if |names| > 1 {
      var rest := Join(names[1..]);
      assert Join(names) == names[0] + "|" + rest;
      SplitFirst(names[0], rest);
      SplitJoin(names[1..]);
      assert names == [names[0]] + names[1..];
    }
  }

  /** A printed line ends in a newline, and when the database names
      hold no `|`, cutting the rest at `|` recovers the resolved names, as
      many as the query's level asks for. */
  lemma PrintArgFields(db: Database, q: Query)
    requires PipeFree(db)
    requires PrintArg(db, q).Ok?
    ensures var line := PrintArg(db, q).value;
      && 0 < |line| && line[|line| - 1] == '\n'
      && Split(line[..|line| - 1]) == Resolve(db, q).value
      && |Split(line[..|line| - 1])| == Depth(q.Level())
  {
    var names := Resolve(db, q).value;
    forall i | 0 <= i < |names|
      ensures '|' !in names[i]
    {
    }
    SplitJoin(names);
    var line := Line(names);
    assert line[..|line| - 1] == Join(names);
  }

  /** When every argument resolves, every one gets its line, in order, and
      nothing fails. */
  lemma ProcessArgsAllResolved(db: Database, args: seq<CString>)
    requires forall i :: 0 <= i < |args| ==> ProcessArg(db, args[i]).Ok?
    ensures var o := ProcessArgs(db, args);
      && o.failure.None?
      && |o.lines| == |args|
      && forall i :: 0 <= i < |args| ==> o.lines[i] == ProcessArg(db, args[i]).value
  {
  }

  /** When argument `k` (from 0) is the first that fails, exactly the `k`
      lines before it are printed and its failure ends the run. */
  lemma ProcessArgsFirstFailure(db: Database, args: seq<CString>, k: nat)
    requires k < |args|
    requires forall i :: 0 <= i < k ==> ProcessArg(db, args[i]).Ok?
    requires ProcessArg(db, args[k]).Err?
    ensures var o := ProcessArgs(db, args);
      && |o.lines| == k
      && o.failure == Some(ProcessArg(db, args[k]).error)
      && forall i :: 0 <= i < k ==> o.lines[i] == ProcessArg(db, args[i]).value
  {
  }

  /** A run exits 0 exactly when there are arguments, the database opened,
      and every argument resolved; it then printed one line per argument. */
  lemma RunExitStatus(args: seq<CString>, db: Option<Database>)
    ensures ExitStatus(Run(args, db)) == 0 <==>
      && 0 < |args|
      && db.Some?
      && forall i :: 0 <= i < |args| ==> ProcessArg(db.value, args[i]).Ok?
    ensures ExitStatus(Run(args, db)) == 0 ==> |Run(args, db).lines| == |args|
  {
    if 0 < |args| && db.Some? {
      var o := ProcessArgs(db.value, args);
      if o.failure.Some? {
        assert !ProcessArg(db.value, args[|o.lines|]).Ok?;
      }
    }
  }

  /** At the entry point: when the database opened and argument `k` (from
      0) is the first that fails, `main` prints exactly the `k` lines of the
      earlier arguments and ends with argument `k`'s error. */
  lemma RunFirstFailure(args: seq<CString>, db: Database, k: nat)
    requires k < |args|
    requires forall i :: 0 <= i < k ==> ProcessArg(db, args[i]).Ok?
    requires ProcessArg(db, args[k]).Err?
    ensures var o := Run(args, Some(db));
      && |o.lines| == k
      && o.failure == Some(ProcessArg(db, args[k]).error)
      && forall i :: 0 <= i < k ==> o.lines[i] == ProcessArg(db, args[i]).value
  {
    ProcessArgsFirstFailure(db, args, k);
  }

  /** A known argument prints its line: when the argument parses and every
      id its query asks for is in the database, the line is the names of
      that query joined by `|`. */
  lemma ProcessArgFound(db: Database, arg: CString)
    requires ParseArg(arg).Ok? && Found(db, ParseArg(arg).value)
    ensures ProcessArg(db, arg) == Ok(Line(Resolve(db, ParseArg(arg).value).value))
  {
  }

  /** At the entry point: when the database opened and every argument
      resolves, `main` prints one line per argument, line `i` being argument
      `i`'s, and exits 0. */
  lemma RunAllResolved(args: seq<CString>, db: Database)
    requires 0 < |args|
    requires forall i :: 0 <= i < |args| ==> ProcessArg(db, args[i]).Ok?
    ensures var o := Run(args, Some(db));
      && o.failure.None?
      && ExitStatus(o) == 0
      && |o.lines| == |args|
      && forall i :: 0 <= i < |args| ==> o.lines[i] == ProcessArg(db, args[i]).value
  {
    ProcessArgsAllResolved(db, args);
  }
}
