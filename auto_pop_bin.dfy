/**
 The earlier batch converter: converter `CUE2POPS_2_3.exe`, loader stubs
 always prefixed `XX`. Its `processBinDumps` tests a name it never
 defined (`cBin`, where the lookup was bound to `cbin`), so as written
 every run with a cue sheet ends in a `NameError` before the first
 conversion. `ProcessBinDumpsAsWritten` models that; `ProcessBinDumps`
 is the run it evidently meant, the same loop as the later script's.
 */
module AutoPopBin {
  import opened Titles
  import opened Staging
  import opened Scenarios

  /** The converter executable, found in the working directory. */
  const Converter := "CUE2POPS_2_3.exe"

  /** The prefix every stub gets. */
  const Prefix := "XX"

  /** `getCueSheets(directory)`: nothing for an empty path, otherwise the
      listing entries whose name contains `.cue`, in listing order. */
  method GetCueSheets(directory: string, files: seq<string>) returns (cueList: seq<string>)
    ensures directory == "" ==> cueList == []
    ensures directory != "" ==> cueList == CueFilter(files)
  {
    if directory == "" {
      return [];
    }
    cueList := [];
    for i := 0 to |files|
      invariant cueList == CueFilter(files[..i])
    {
      var file := files[i];
      CueFilterSnoc(files[..i], file);
      assert files[..i + 1] == files[..i] + [file];
      if IsCueSheet(file) {
        cueList := cueList + [file];
      }
    }
    assert files[..|files|] == files;
  }

  /** The cue sheets a run over `sourceDir` handles. */
  function Cues(sourceDir: string, src: Source): seq<string> {
    if sourceDir == "" then [] else CueFilter(src.listing)
  }

  /** `createPopsElf(name, destDir)`: the template copied into the
      destination as `XX.<name stripped>.ELF`; `ok` is false when the copy
      raises for want of a template. */
  method CreatePopsElf(v: Volumes, name: string) returns (ok: bool)
    modifies v
    ensures ok == (Template in old(v.work))
    ensures ok ==> v.dest == old(v.dest)[StubName(Prefix, name) := old(v.work)[Template]]
    ensures !ok ==> v.dest == old(v.dest)
    ensures v.work == old(v.work) && v.calls == old(v.calls)
  {
    ok := v.CopyTemplate(StubName(Prefix, name));
  }

  /** What `processBinDumps` does as written: no cue sheet aborts as in the
      later script; otherwise the first cue sheet is looked up and then the
      test of the undefined `cBin` raises, before anything is converted or
      staged. */
  function AsWritten(d: Dirs, cues: seq<string>): (o: Outcome)
    ensures o.dirs == d && o.log == []
    ensures o.status.Aborted?
  {
    if cues == [] then Outcome(Aborted(NoCueSheets), d, [])
    else Outcome(Aborted(UndefinedName("cBin")), d, [])
  }

  /** `processBinDumps(source, dest)` as written: it ends as `AsWritten`
      says, and (having no `modifies`) leaves the volumes as they were. */
  method ProcessBinDumpsAsWritten(v: Volumes, sourceDir: string, src: Source) returns (status: Status)
    ensures status == AsWritten(v.State(), Cues(sourceDir, src)).status
  {
    var cues := GetCueSheets(sourceDir, src.listing);
    if cues == [] {
      return Aborted(NoCueSheets);
    }
    var cbin := Resolve(src, cues[0]);
    return Aborted(UndefinedName("cBin"));
  }

  /** `processBinDumps(source, dest)` with the lookup's result tested under
      the name it was bound to: the per-title pipeline with converter
      `CUE2POPS_2_3.exe` and prefix `XX`. */
  method ProcessBinDumps(v: Volumes, sourceDir: string, src: Source, converter: nat -> ConverterRun)
    returns (status: Status)
    modifies v
    ensures var o := Pipeline(old(v.State()), Converter, src, Cues(sourceDir, src), Prefix, converter);
      status == o.status && v.State() == o.dirs
  {
    var cues := GetCueSheets(sourceDir, src.listing);
    if cues == [] {
      return Aborted(NoCueSheets);
    }
    status := v.ProcessCues(Converter, src, cues, Prefix, converter);
  }

  /** The two agree exactly when there is no cue sheet. */
  lemma AsWrittenAgreesOnlyWithoutCues(d: Dirs, sourceDir: string, src: Source, converter: nat -> ConverterRun)
    ensures var cues := Cues(sourceDir, src);
      cues == [] <==> AsWritten(d, cues) == Pipeline(d, Converter, src, cues, Prefix, converter)
  {
    var cues := Cues(sourceDir, src);
    if cues != [] {
      var o := Pipeline(d, Converter, src, cues, Prefix, converter);
      HandleSound(Converter, Prefix, converter);
      RunFollowsCues(d, Handle(Converter, Prefix, converter), ResolveAll(src, cues), Prefix);
      assert |o.log| >= 1;
    }
  }

  /** The input that shows it: a directory with `<base>.cue` and
      `<base>.bin` (`game.cue` and `game.bin`, say) and a converter that
      succeeds. As written the run aborts with the destination untouched and
      the converter never invoked; the intended run converts `<base>.VCD`
      and stages `XX.<base>.ELF`. */
  lemma CBinNameErrorSkipsTitle(sourceDir: string, base: string, work: map<string, Blob>, vcd: Blob)
    requires sourceDir != "" && PlainBase(base) && Template in work && base + VcdExt !in work
    ensures var d, src := Dirs(map[], work, []), OneTitle(base);
      var cues := Cues(sourceDir, src);
      var buggy, fixed := AsWritten(d, cues), Pipeline(d, Converter, src, cues, Prefix, Succeeding(vcd));
      && buggy == Outcome(Aborted(UndefinedName("cBin")), d, [])
      && fixed.status == Completed
      && fixed.dirs.calls == [Call(Converter, base + ".cue", base + VcdExt)]
      && fixed.dirs.dest == map[base + VcdExt := vcd, Prefix + "." + base + ElfExt := work[Template]]
  {
    OneTitleFirstRun(Converter, Prefix, base, work, vcd);
    OneTitleResolves(base);
  }
}
