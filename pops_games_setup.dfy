/**
 The batch converter with a selectable loader prefix: validates the prefix
 argument, lists the cue sheets of the source directory and runs the
 per-title pipeline with converter `CUE2POPS.exe`.
 */
module PopsGamesSetup {
  import opened PyStr
  import opened Titles
  import opened Staging

  /** The converter executable, found in the working directory. */
  const Converter := "CUE2POPS.exe"

  /** The prefix used when none is given. */
  const DefaultPrefix := "XX"

  /** USB edition (`XX`) and SMB edition (`SB`) of the loader. */
  const ValidPrefixes := ["XX", "SB"]

  /** `validateElfPrefix`: the argument upper-cased and stripped, or an
      error naming that value when it is not a valid prefix. */
  function ValidateElfPrefix(prefix: string): (r: Result<string>)
    ensures r.Ok? ==> r.value in ValidPrefixes
  {
    var p := Strip(Upper(prefix));
    if p !in ValidPrefixes then Err(InvalidPrefix(p)) else Ok(p)
  }

  /** Exactly the two-letter spellings of `XX` and `SB` in either case,
      with any whitespace around them, are accepted; the result is the
      upper-case prefix, and a rejected argument is reported upper-cased and
      stripped. */
  lemma PrefixAcceptance(prefix: string)
    ensures var r, q := ValidateElfPrefix(prefix), Strip(prefix);
      && (r.Ok? <==> q in ["xx", "xX", "Xx", "XX", "sb", "sB", "Sb", "SB"])
      && (r.Ok? ==> r.value == Upper(q))
      && (r.Err? ==> r.error == InvalidPrefix(Upper(q)))
  {
    var q := Strip(prefix);
    StripUpperCommute(prefix);
    var u := Upper(q);
    if |q| == 2 {
      assert u == [UpperChar(q[0]), UpperChar(q[1])];
      if u == "XX" || u == "SB" {
        assert q == [q[0], q[1]];
      }
    }
  }

  /** Validating an already validated prefix returns it unchanged. */
  lemma ValidateIdempotent(prefix: string)
    requires ValidateElfPrefix(prefix).Ok?
    ensures ValidateElfPrefix(ValidateElfPrefix(prefix).value) == ValidateElfPrefix(prefix)
  {
    var p := ValidateElfPrefix(prefix).value;
    assert p == "XX" || p == "SB";
    assert Upper(p) == p;
    StripUnpadded(p);
  }

  /** The prefix chosen in `main`: `XX` unless a third argument follows the
      two paths, which is then validated. */
  function ElfPrefix(argv: seq<string>): (r: Result<string>)
    ensures |argv| <= 3 ==> r == Ok(DefaultPrefix)
    ensures |argv| > 3 ==> r == ValidateElfPrefix(argv[3])
    ensures r.Ok? ==> r.value in ValidPrefixes
  {
    if |argv| > 3 then ValidateElfPrefix(argv[3]) else Ok(DefaultPrefix)
  }

  /** `getCueSheets`: the listing entries whose name contains `.cue`, in
      listing order. */
  method GetCueSheets(files: seq<string>) returns (cueList: seq<string>)
    ensures cueList == CueFilter(files)
  {
    cueList := [];
    for i := 0 to |files|
      invariant cueList == CueFilter(files[..i])
    {
      var file := files[i];
      CueFilterSnoc(files[..i], file);
      assert files[..i + 1] == files[..i] + [file];
      if Find(file, CueMarker) >= 0 {
        cueList := cueList + [file];
      }
    }
    assert files[..|files|] == files;
  }

  /** `createPopStarterCopy`: the template copied into the destination as
      `<prefix>.<name stripped>.ELF`; `ok` is false when the copy raises for
      want of a template. */
  method CreatePopStarterCopy(v: Volumes, name: string, elfPrefix: string) returns (ok: bool)
    modifies v
    ensures ok == (Template in old(v.work))
    ensures ok ==> v.dest == old(v.dest)[StubName(elfPrefix, name) := old(v.work)[Template]]
    ensures !ok ==> v.dest == old(v.dest)
    ensures v.work == old(v.work) && v.calls == old(v.calls)
  {
    ok := v.CopyTemplate(StubName(elfPrefix, name));
  }

  /** `processBinDumps(sourceDir, destDir, elfPrefix)`: no cue sheet aborts
      the run untouched; otherwise the titles are handled in listing order. */
  method ProcessBinDumps(v: Volumes, src: Source, elfPrefix: string, converter: nat -> ConverterRun)
    returns (status: Status)
    modifies v
    ensures var o := Pipeline(old(v.State()), Converter, src, CueFilter(src.listing), elfPrefix, converter);
      status == o.status && v.State() == o.dirs
  {
    var cues := GetCueSheets(src.listing);
    if cues == [] {
      return Aborted(NoCueSheets);
    }
    status := v.ProcessCues(Converter, src, cues, elfPrefix, converter);
  }
}
