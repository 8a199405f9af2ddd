/**
 * The command-line configuration (`Config`): the snapshot directory, the
 * snapshot file name and the listening port, with their defaults, and the
 * loop of `parseArgs` that overrides them from `argv`.
 *
 * `std::stoi` on the value of `--port` throws when the value does not start
 * with a decimal number or does not fit an `int`; the exception is not
 * caught, so it ends the program.  `ParseArgs` reports it as `false`.
 */
module Configuration {
  import opened CLib

  /** The three fields of `Config`. */
  datatype Options = Options(dir: string, dbFilename: string, port: int)

  /** The values the constructor sets. */
  const Defaults: Options := Options(".", "dump.rdb", 6379)

  /** The flags `parseArgs` recognises; each takes the next argument as its value. */
  const Flags: set<string> := {"--dir", "--dbfilename", "--port"}

  /**
   * What the loop of `parseArgs` does from index `i` on, starting from the
   * fields `o`: a recognised flag with a following argument takes it as its
   * value and the loop skips both; anything else, a flag in the last
   * position included, is passed over.
   */
  function Apply(argv: seq<string>, i: nat, o: Options): Outcome<Options>
    decreases |argv| - i
  {
    if i >= |argv| then Done(o)
    else if argv[i] == "--dir" && i + 1 < |argv| then Apply(argv, i + 2, o.(dir := argv[i + 1]))
    else if argv[i] == "--dbfilename" && i + 1 < |argv| then Apply(argv, i + 2, o.(dbFilename := argv[i + 1]))
    else if argv[i] == "--port" && i + 1 < |argv| then
      match StoI(argv[i + 1])
      case Threw => Threw
      case Done(p) => Apply(argv, i + 2, o.(port := p))
    else Apply(argv, i + 1, o)
  }

  class Config {
    var dir: string
    var dbFilename: string
    var port: int

    function Fields(): Options
      reads this
    {
      Options(dir, dbFilename, port)
    }

    constructor()
      ensures Fields() == Defaults
    {
      dir := ".";
      dbFilename := "dump.rdb";
      port := 6379;
    }

    /** `parseArgs`: `false` when `std::stoi` threw on the value of `--port`. */
    method ParseArgs(argv: seq<string>) returns (ok: bool)
      modifies this
      ensures ok <==> Apply(argv, 1, old(Fields())).Done?
      ensures ok ==> Fields() == Apply(argv, 1, old(Fields())).value
    {
      ghost var target := Apply(argv, 1, Fields());
      var i := 1;
      while i < |argv|
        invariant 1 <= i
        invariant Apply(argv, i, Fields()) == target
        decreases |argv| - i
      {
        if argv[i] == "--dir" && i + 1 < |argv| {
          i := i + 1;
          dir := argv[i];
        } else if argv[i] == "--dbfilename" && i + 1 < |argv| {
          i := i + 1;
          dbFilename := argv[i];
        } else if argv[i] == "--port" && i + 1 < |argv| {
          i := i + 1;
          var value := StoI(argv[i]);
          if value.Threw? {
            return false;
          }
          port := value.value;
        }
        i := i + 1;
      }
      return true;
    }
  }

  // ---------------------------------------------------------------------
  // Properties

  /** The loop reads `argv` only from index `i` on. */
  lemma {:induction false} ApplyReadsOnlySuffix(a: seq<string>, b: seq<string>, i: nat, o: Options)
    requires |a| == |b| && i <= |a| && a[i..] == b[i..]
    ensures Apply(a, i, o) == Apply(b, i, o)
    decreases |a| - i
  {
    if i < |a| {
      assert a[i] == a[i..][0] && b[i] == b[i..][0];
      if i + 1 < |a| {
        assert a[i + 1] == a[i..][1] && b[i + 1] == b[i..][1];
      }
      if i + 2 <= |a| {
        assert a[i + 2..] == a[i..][2..] && b[i + 2..] == b[i..][2..];
        ApplyReadsOnlySuffix(a, b, i + 2, o.(dir := a[i + 1]));
        ApplyReadsOnlySuffix(a, b, i + 2, o.(dbFilename := a[i + 1]));
        if StoI(a[i + 1]).Done? {
          ApplyReadsOnlySuffix(a, b, i + 2, o.(port := StoI(a[i + 1]).value));
        }
      }
      assert a[i + 1..] == a[i..][1..] && b[i + 1..] == b[i..][1..];
      ApplyReadsOnlySuffix(a, b, i + 1, o);
    }
  }

  /** `argv[0]`, the program name, is never inspected, even when it reads as a flag. */
  lemma {:induction false} ProgramNameIgnored(argv: seq<string>, name: string, o: Options)
    requires argv != []
    ensures Apply([name] + argv[1..], 1, o) == Apply(argv, 1, o)
  {
    assert ([name] + argv[1..])[1..] == argv[1..];
    ApplyReadsOnlySuffix([name] + argv[1..], argv, 1, o);
  }

  /**
   * A recognised flag followed by a value sets its field to that value, and
   * the value is consumed: the loop goes on after it even when the value
   * itself reads as a flag.
   */
  lemma {:induction false} FlagTakesNextArgument(argv: seq<string>, i: nat, o: Options)
    requires i + 1 < |argv|
    ensures argv[i] == "--dir" ==> Apply(argv, i, o) == Apply(argv, i + 2, o.(dir := argv[i + 1]))
    ensures argv[i] == "--dbfilename" ==> Apply(argv, i, o) == Apply(argv, i + 2, o.(dbFilename := argv[i + 1]))
    ensures argv[i] == "--port" && StoI(argv[i + 1]).Done? ==>
      Apply(argv, i, o) == Apply(argv, i + 2, o.(port := StoI(argv[i + 1]).value))
    ensures argv[i] == "--port" && StoI(argv[i + 1]).Threw? ==> Apply(argv, i, o) == Threw
  {
  }

  /** An argument that is not a recognised flag is passed over. */
  lemma {:induction false} UnknownArgumentIgnored(argv: seq<string>, i: nat, o: Options)
    requires i < |argv| && argv[i] !in Flags
    ensures Apply(argv, i, o) == Apply(argv, i + 1, o)
  {
  }

  /** A flag in the last position, having no value, changes no field. */
  lemma {:induction false} TrailingFlagIgnored(argv: seq<string>, o: Options)
    requires |argv| >= 2
    ensures Apply(argv, |argv| - 1, o) == Done(o)
  {
  }

  /**
   * Of two occurrences of a flag in a row, the later one wins.  The general
   * form, for any flag and any distance, follows from `FlagTakesNextArgument`
   * (each occurrence sets its field) and `FieldsChangeOnlyByTheirFlag`
   * (nothing in between but that flag changes it).
   */
  lemma {:induction false} LaterFlagOverrides(argv: seq<string>, i: nat, o: Options, v: string, w: string)
    requires i + 4 <= |argv| && argv[i..i + 4] == ["--dir", v, "--dir", w]
    ensures Apply(argv, i, o) == Apply(argv, i + 4, o.(dir := w))
  {
    assert argv[i] == "--dir" && argv[i + 1] == v;
    assert argv[i + 2] == "--dir" && argv[i + 3] == w;
  }

  /**
   * A field changes only through its own flag: without a `--dir` among the
   * arguments the directory stays as it was, and likewise for the other two.
   */
  lemma {:induction false} FieldsChangeOnlyByTheirFlag(argv: seq<string>, i: nat, o: Options)
    requires Apply(argv, i, o).Done?
    ensures var r := Apply(argv, i, o).value;
      && (forall j :: i <= j < |argv| ==> argv[j] != "--dir") ==> r.dir == o.dir
    ensures var r := Apply(argv, i, o).value;
      && (forall j :: i <= j < |argv| ==> argv[j] != "--dbfilename") ==> r.dbFilename == o.dbFilename
    ensures var r := Apply(argv, i, o).value;
      && (forall j :: i <= j < |argv| ==> argv[j] != "--port") ==> r.port == o.port
    decreases |argv| - i
  {
    if i < |argv| {
      if argv[i] in Flags && i + 1 < |argv| {
        if argv[i] == "--dir" {
          FieldsChangeOnlyByTheirFlag(argv, i + 2, o.(dir := argv[i + 1]));
        } else if argv[i] == "--dbfilename" {
          FieldsChangeOnlyByTheirFlag(argv, i + 2, o.(dbFilename := argv[i + 1]));
        } else {
          FieldsChangeOnlyByTheirFlag(argv, i + 2, o.(port := StoI(argv[i + 1]).value));
        }
      } else {
        FieldsChangeOnlyByTheirFlag(argv, i + 1, o);
      }
    }
  }

  /** Every directory and file name the parse ends with is the default or one of the arguments. */
  lemma {:induction false} ValuesComeFromArguments(argv: seq<string>, i: nat, o: Options)
    requires Apply(argv, i, o).Done?
    ensures var r := Apply(argv, i, o).value;
      && (r.dir == o.dir || exists j :: i < j < |argv| && r.dir == argv[j])
      && (r.dbFilename == o.dbFilename || exists j :: i < j < |argv| && r.dbFilename == argv[j])
    decreases |argv| - i
  {
    if i < |argv| {
      if argv[i] in Flags && i + 1 < |argv| {
        var o' := if argv[i] == "--dir" then o.(dir := argv[i + 1])
                  else if argv[i] == "--dbfilename" then o.(dbFilename := argv[i + 1])
                  else o.(port := StoI(argv[i + 1]).value);
        assert Apply(argv, i, o) == Apply(argv, i + 2, o');
        ValuesComeFromArguments(argv, i + 2, o');
        var r := Apply(argv, i, o).value;
        if r.dir == o'.dir && r.dir != o.dir {
          assert r.dir == argv[i + 1];
        }
        if r.dbFilename == o'.dbFilename && r.dbFilename != o.dbFilename {
          assert r.dbFilename == argv[i + 1];
        }
      } else {
        ValuesComeFromArguments(argv, i + 1, o);
      }
    }
  }

  /** A command line naming all three options sets all three. */
  lemma {:induction false} AllThreeOptions(name: string, d: string, f: string, p: int)
    requires IntMin <= p <= IntMax
    ensures Apply([name, "--dir", d, "--dbfilename", f, "--port", IntToString(p)], 1, Defaults) == Done(Options(d, f, p))
  {
    var argv := [name, "--dir", d, "--dbfilename", f, "--port", IntToString(p)];
    StoIOfIntToString(p);
    assert argv[3] == "--dbfilename" && argv[3] != "--dir";
    assert argv[5] == "--port" && argv[5] != "--dir" && argv[5] != "--dbfilename";
    assert Apply(argv, 1, Defaults) == Apply(argv, 3, Options(d, "dump.rdb", 6379));
    assert Apply(argv, 3, Options(d, "dump.rdb", 6379)) == Apply(argv, 5, Options(d, f, 6379));
    assert Apply(argv, 5, Options(d, f, 6379)) == Apply(argv, 7, Options(d, f, p));
  }
}
