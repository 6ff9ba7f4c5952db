/**
 Small source directories and what one run of `processBinDumps` does with
 them, for any converter executable `exe` and loader prefix.
 */
module Scenarios {
  import opened PyStr
  import opened Titles
  import opened Staging

  /** A title name (`Final Fantasy`, `Crash Bandicoot`, `Tekken.3`) that the
      token removal leaves alone and `strip` keeps whole: non-empty, no
      whitespace at its ends, neither `FILE` nor `BINARY`, no `"`, and
      neither `.bin` nor `.cue` inside it. */
  predicate PlainBase(base: string) {
    && base != [] && !IsSpace(base[0]) && !IsSpace(base[|base| - 1])
    && TokenFree(base) && !Contains(base, BinExt) && !Contains(base, CueMarker)
  }

  /** A source directory holding `<base>.cue` and `<base>.bin`, the cue
      sheet naming the image in the expected form (`game1` is one such
      base). */
  function OneTitle(base: string): Source {
    Source([base + ".cue", base + BinExt], (name: string) => CueLine(base + BinExt))
  }

  /** Its one cue sheet is found, and its image accepted as ` <base> ` plus
      line break. */
  lemma OneTitleResolves(base: string)
    requires PlainBase(base)
    ensures CueFilter(OneTitle(base).listing) == [base + ".cue"]
    ensures ResolveAll(OneTitle(base), [base + ".cue"]) == [Title(base + ".cue", Found(" " + base + " \n"))]
  {
    WellFormedCueSheet(base, OneTitle(base).listing);
    CueThenImage(base, BinExt);
  }

  /** Of a cue sheet and an image named after it, only the cue sheet is
      taken when the image's extension is a dot followed by anything without
      a `c`. */
  lemma CueThenImage(base: string, ext: string)
    requires !Contains(base, CueMarker) && ext != [] && ext[0] == '.' && 'c' !in ext
    ensures CueFilter([base + ".cue", base + ext]) == [base + ".cue"]
  {
    assert OccursAt(base + ".cue", CueMarker, |base|);
    NoOccurrence(ext, CueMarker, 'c');
    AbsentAfter(base, ext, CueMarker);
    assert CueFilter([base + ext]) == [];
    assert [base + ".cue", base + ext][1..] == [base + ext];
  }

  /** A converter that exits with 1 after writing `vcd` every time. */
  function Succeeding(vcd: Blob): nat -> ConverterRun {
    (n: nat) => ConverterRun(1, Wrote(vcd))
  }

  /** A first run into an empty destination with a converter that succeeds:
      one converter call, for `<base>.VCD`, and the destination ends up
      holding `<base>.VCD` and `<prefix>.<base>.ELF`, a copy of the
      template. */
  lemma OneTitleFirstRun(exe: string, prefix: string, base: string, work: map<string, Blob>, vcd: Blob)
    requires PlainBase(base) && Template in work && base + VcdExt !in work
    ensures var o := Pipeline(Dirs(map[], work, []), exe, OneTitle(base), CueFilter(OneTitle(base).listing),
                              prefix, Succeeding(vcd));
      && o.status == Completed
      && o.dirs.calls == [Call(exe, base + ".cue", base + VcdExt)]
      && o.dirs.dest == map[base + VcdExt := vcd, prefix + "." + base + ElfExt := work[Template]]
      && o.dirs.work == work
      && o.log == [Converted(" " + base + " \n", 1)]
  {
    OneTitleResolves(base);
    var d := Dirs(map[], work, []);
    var t := Title(base + ".cue", Found(" " + base + " \n"));
    var h := Handle(exe, prefix, Succeeding(vcd));
    FirstConversion(exe, prefix, base, work, vcd);
    assert h(d, t) == Step(d, exe, t, prefix, Succeeding(vcd));
    SingleTitleRun(d, h, t);
  }

  /** The step of that run. */
  lemma FirstConversion(exe: string, prefix: string, base: string, work: map<string, Blob>, vcd: Blob)
    requires PlainBase(base) && Template in work && base + VcdExt !in work
    ensures Step(Dirs(map[], work, []), exe, Title(base + ".cue", Found(" " + base + " \n")), prefix, Succeeding(vcd))
         == TitleStep(Converted(" " + base + " \n", 1),
                      Dirs(map[base + VcdExt := vcd, prefix + "." + base + ElfExt := work[Template]], work,
                           [Call(exe, base + ".cue", base + VcdExt)]),
                      true)
  {
    PaddedNames(base, prefix);
    var d := Dirs(map[], work, []);
    var c := Convert(d, exe, base + ".cue", " " + base + " \n", ConverterRun(1, Wrote(vcd)));
    assert work[base + VcdExt := vcd] - {base + VcdExt} == work;
    assert c == Conversion(1, Dirs(map[base + VcdExt := vcd], work, [Call(exe, base + ".cue", base + VcdExt)]));
  }

  /** The same run when the destination already holds `<base>.VCD`: the
      converter is not invoked and no stub is staged. */
  lemma OneTitleAlreadyConverted(exe: string, prefix: string, base: string, work: map<string, Blob>, vcd: Blob,
                                 converter: nat -> ConverterRun)
    requires PlainBase(base)
    ensures var d := Dirs(map[base + VcdExt := vcd], work, []);
      var o := Pipeline(d, exe, OneTitle(base), CueFilter(OneTitle(base).listing), prefix, converter);
      o.status == Completed && o.dirs == d && o.log == [AlreadyConverted(" " + base + " \n")]
  {
    OneTitleResolves(base);
    PaddedNames(base, prefix);
    var d := Dirs(map[base + VcdExt := vcd], work, []);
    var t := Title(base + ".cue", Found(" " + base + " \n"));
    var h := Handle(exe, prefix, converter);
    assert h(d, t) == Step(d, exe, t, prefix, converter) == TitleStep(AlreadyConverted(t.lookup.name), d, true);
    SingleTitleRun(d, h, t);
  }

  /** A source directory holding `<base>.cue`, naming `<base>.iso`, and
      `<base>.iso`. */
  function IsoTitle(base: string): Source {
    Source([base + ".cue", base + ".iso"], (name: string) => CueLine(base + ".iso"))
  }

  /** Its one cue sheet is found, and its image rejected as unsupported. */
  lemma IsoTitleResolves(base: string)
    requires PlainBase(base)
    ensures CueFilter(IsoTitle(base).listing) == [base + ".cue"]
    ensures ResolveAll(IsoTitle(base), [base + ".cue"]) == [Title(base + ".cue", Unsupported)]
  {
    TokenFreeWithExt(base, "iso");
    assert base + "." + "iso" == base + ".iso";
    NoOccurrence(".iso", BinExt, 'b');
    AbsentAfter(base, ".iso", BinExt);
    OtherImageUnsupported(base + ".iso", IsoTitle(base).listing);
    CueThenImage(base, ".iso");
  }

  /** Such a cue sheet is skipped: no converter call, nothing produced. */
  lemma IsoImageSkipped(exe: string, prefix: string, base: string, d: Dirs, converter: nat -> ConverterRun)
    requires PlainBase(base)
    ensures var o := Pipeline(d, exe, IsoTitle(base), CueFilter(IsoTitle(base).listing), prefix, converter);
      o.status == Completed && o.dirs == d && o.log == [Rejected(Unsupported)]
  {
    IsoTitleResolves(base);
    var t := Title(base + ".cue", Unsupported);
    var h := Handle(exe, prefix, converter);
    assert h(d, t) == Step(d, exe, t, prefix, converter) == TitleStep(Rejected(Unsupported), d, true);
    SingleTitleRun(d, h, t);
  }

  /** A listed image whose name contains `FILE` is never found: the token
      removal also cuts it out of the name, and `PRO.bin` is not listed. */
  lemma ProfileImageMissing()
    ensures GetBinName(CueLine("PROFILE.bin"), ["PROFILE.cue", "PROFILE.bin"]) == Missing
  {
    assert "PROFILE.bin" == "PRO" + "FILE" + ".bin";
    FileInImageName("PRO", ".bin");
    assert TokenFree("PRO") && !Contains("PRO", BinExt) by {
      NoOccurrence("PRO", "FILE", 'F');
      NoOccurrence("PRO", "BINARY", 'B');
      NoOccurrence("PRO", BinExt, '.');
    }
    WellFormedCueSheet("PRO", ["PROFILE.cue", "PROFILE.bin"]);
    assert "PRO" + BinExt !in ["PROFILE.cue", "PROFILE.bin"];
  }
}
