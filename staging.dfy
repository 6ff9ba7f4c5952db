/**
 The per-title conversion and staging workflow over an abstract file
 system: the destination directory and the current working directory as
 name-to-content maps, the source directory as an unchanging listing with
 each file's first line, and a log of converter invocations. The external
 converter is an oracle: for its n-th invocation it reports an exit code
 and whether it wrote the requested VCD into the working directory.
 */
module Staging {
  import opened PyStr
  import opened Titles

  type Blob = seq<bv8>

  /** The loader template, read from the working directory. */
  const Template := "POPSTARTER.ELF"

  /** One converter invocation: `[exe, cueFile, vcdName]`. The cue sheet is
      recorded by its name in the source directory. */
  datatype Call = Call(exe: string, cueFile: string, vcdName: string)

  /** What the converter may leave behind in the working directory. */
  datatype Output = NoOutput | Wrote(data: Blob)

  /** The oracle's answer for one invocation. */
  datatype ConverterRun = ConverterRun(exitCode: int, output: Output)

  /** The source directory: its listing, in `os.listdir` order, and the
      first line of each file in it. It does not change during a run. */
  datatype Source = Source(listing: seq<string>, firstLine: string -> string)

  /** The part of the file system a run changes. */
  datatype Dirs = Dirs(dest: map<string, Blob>, work: map<string, Blob>, calls: seq<Call>)

  /** `getBinName(cue, sourceDir)`. */
  function Resolve(src: Source, cue: string): BinLookup {
    GetBinName(src.firstLine(cue), src.listing)
  }

  /** A cue sheet with what `getBinName` made of it. */
  datatype Title = Title(cue: string, lookup: BinLookup)

  /** Each cue sheet resolved. Resolving reads the unchanging source
      directory only, so resolving all titles first is the same as resolving
      each when the loop reaches it. */
  function ResolveAll(src: Source, cues: seq<string>): seq<Title> {
    seq(|cues|, i requires 0 <= i < |cues| => Title(cues[i], Resolve(src, cues[i])))
  }

  /** `convertBinToVcd`'s result code and the file system after it. */
  datatype Conversion = Conversion(code: int, dirs: Dirs)

  /** `convertBinToVcd(cueFile, destDir, binName)` with converter `exe`
      behaving as `run` if it is invoked. */
  function Convert(d: Dirs, exe: string, cueFile: string, binName: string, run: ConverterRun): (c: Conversion)
    ensures c.code in {-1, 0, 1}
  {
    var vcdName := VcdName(binName);
    if vcdName in d.dest then Conversion(0, d)
    else
      var calls := d.calls + [Call(exe, cueFile, vcdName)];
      var work := if run.output.Wrote? then d.work[vcdName := run.output.data] else d.work;
      if run.exitCode != 1 then Conversion(0, Dirs(d.dest, work, calls))
      else if vcdName !in work then Conversion(-1, Dirs(d.dest, work, calls))
      else Conversion(1, Dirs(d.dest[vcdName := work[vcdName]], work - {vcdName}, calls))
  }

  /** What `convertBinToVcd` promises, case by case. */
  lemma ConvertOutcome(d: Dirs, exe: string, cueFile: string, binName: string, run: ConverterRun)
    ensures var c := Convert(d, exe, cueFile, binName, run); var vcd := VcdName(binName);
      // an existing VCD: 0, no invocation, nothing changes
      && (vcd in d.dest ==> c == Conversion(0, d))
      // otherwise the converter is invoked exactly once
      && (vcd !in d.dest ==> c.dirs.calls == d.calls + [Call(exe, cueFile, vcd)])
      // 1 exactly when exit code 1 and the VCD is in the working directory afterwards
      && (c.code == 1 <==> vcd !in d.dest && run.exitCode == 1 && (run.output.Wrote? || vcd in d.work))
      // -1 exactly when exit code 1 and there is no VCD to be found
      && (c.code == -1 <==> vcd !in d.dest && run.exitCode == 1 && !run.output.Wrote? && vcd !in d.work)
      // on 1 the VCD has moved from the working directory to the destination
      && (c.code == 1 ==> vcd in c.dirs.dest && vcd !in c.dirs.work && c.dirs.dest.Keys == d.dest.Keys + {vcd})
      // on anything else the destination is as it was
      && (c.code != 1 ==> c.dirs.dest == d.dest)
      // the rest of the working directory is untouched
      && c.dirs.work - {vcd} == d.work - {vcd}
  {
  }

  /** `shutil.copy` of the template to `fileName` in the destination: the
      entry is added or overwritten; with no template the copy raises. */
  function StageStub(d: Dirs, fileName: string): (r: Result<Dirs>)
    ensures r.Err? <==> Template !in d.work
    ensures r.Err? ==> r.error == MissingTemplate
    ensures r.Ok? ==> r.value.dest == d.dest[fileName := d.work[Template]]
    ensures r.Ok? ==> r.value.work == d.work && r.value.calls == d.calls
  {
    if Template !in d.work then Err(MissingTemplate)
    else Ok(d.(dest := d.dest[fileName := d.work[Template]]))
  }

  /** How one title ended, in the order the cue sheets were handled. */
  datatype TitleLog =
    | Rejected(lookup: BinLookup)        // getBinName was falsy
    | AlreadyConverted(name: string)     // the VCD was in the destination: 0
    | Converted(name: string, code: int) // convertBinToVcd's code; 1 stages a stub

  /** The title got a stub (its conversion returned 1). */
  predicate Staged(entry: TitleLog) {
    entry.Converted? && entry.code == 1
  }

  /** `k` is the VCD or the stub of a title that got a stub. */
  predicate StagedAs(entry: TitleLog, prefix: string, k: string) {
    Staged(entry) && (k == VcdName(entry.name) || k == StubName(prefix, entry.name))
  }

  /** The entry logged for a cue sheet tells how it resolved. */
  ghost predicate LogsLookup(entry: TitleLog, lookup: BinLookup) {
    && (entry.Rejected? <==> !Truthy(lookup))
    && (entry.Rejected? ==> entry.lookup == lookup)
    && (!entry.Rejected? ==> lookup == Found(entry.name))
  }

  /** One title handled: its log entry, the file system after it, and
      whether the run may go on (false when staging its stub raised). */
  datatype TitleStep = TitleStep(entry: TitleLog, dirs: Dirs, ok: bool)

  /** One pass of `processBinDumps`' loop body for title `t`. */
  function Step(d: Dirs, exe: string, t: Title, prefix: string, converter: nat -> ConverterRun): TitleStep {
    if !Truthy(t.lookup) then TitleStep(Rejected(t.lookup), d, true)
    else
      var name := t.lookup.name;
      var c := Convert(d, exe, t.cue, name, converter(|d.calls|));
      var entry := if VcdName(name) in d.dest then AlreadyConverted(name) else Converted(name, c.code);
      if c.code != 1 then TitleStep(entry, c.dirs, true)
      else
        var staged := StageStub(c.dirs, StubName(prefix, name));
        if staged.Err? then TitleStep(entry, c.dirs, false)
        else TitleStep(entry, staged.value, true)
  }

  /** The log entry `s.entry` tells how title `t` resolved and whether its
      VCD was already there; only a conversion changes anything. */
  ghost predicate EntryFacts(d: Dirs, t: Title, s: TitleStep) {
    && LogsLookup(s.entry, t.lookup)
    && (s.entry.AlreadyConverted? <==> Truthy(t.lookup) && VcdName(t.lookup.name) in d.dest)
    && (s.entry.Converted? ==> s.entry.code in {-1, 0, 1})
    && (!s.entry.Converted? ==> s.ok && s.dirs == d)
  }

  /** Only staging a stub without a template stops the run; the template
      itself is never touched, and converter calls are only appended. */
  ghost predicate TemplateFacts(d: Dirs, s: TitleStep) {
    && (!s.ok <==> Staged(s.entry) && Template !in d.work)
    && (Template in s.dirs.work <==> Template in d.work)
    && (Template in d.work ==> s.dirs.work[Template] == d.work[Template])
    && |d.calls| <= |s.dirs.calls| && s.dirs.calls[..|d.calls|] == d.calls
  }

  /** The destination changes only for a staged title: its VCD arrives and,
      if the run goes on, its stub, a copy of the template. */
  ghost predicate DestFacts(d: Dirs, prefix: string, s: TitleStep) {
    && (!Staged(s.entry) ==> s.dirs.dest == d.dest)
    && (Staged(s.entry) ==>
      && VcdName(s.entry.name) !in d.dest
      && VcdName(s.entry.name) in s.dirs.dest
      && (s.ok ==> Template in d.work)
      && var moved := d.dest[VcdName(s.entry.name) := s.dirs.dest[VcdName(s.entry.name)]];
         s.dirs.dest == if s.ok then moved[StubName(prefix, s.entry.name) := d.work[Template]] else moved)
  }

  lemma StepEntry(d: Dirs, exe: string, t: Title, prefix: string, converter: nat -> ConverterRun)
    ensures EntryFacts(d, t, Step(d, exe, t, prefix, converter))
  {
  }

  lemma StepKeepsTemplate(d: Dirs, exe: string, t: Title, prefix: string, converter: nat -> ConverterRun)
    ensures TemplateFacts(d, Step(d, exe, t, prefix, converter))
  {
    if Truthy(t.lookup) {
      DerivedNamesDistinct(t.lookup.name, t.lookup.name, prefix);
    }
  }

  lemma StepDest(d: Dirs, exe: string, t: Title, prefix: string, converter: nat -> ConverterRun)
    ensures DestFacts(d, prefix, Step(d, exe, t, prefix, converter))
  {
    if Truthy(t.lookup) {
      var name := t.lookup.name;
      var c := Convert(d, exe, t.cue, name, converter(|d.calls|));
      ConvertOutcome(d, exe, t.cue, name, converter(|d.calls|));
      DerivedNamesDistinct(name, name, prefix);
      if c.code == 1 {
        assert c.dirs.dest == d.dest[VcdName(name) := c.dirs.dest[VcdName(name)]];
      }
    }
  }

  /** The loop body of `processBinDumps` for converter `exe`, stub prefix
      `prefix` and converter behaviour `converter`. */
  function Handle(exe: string, prefix: string, converter: nat -> ConverterRun): (Dirs, Title) -> TitleStep {
    (d: Dirs, t: Title) => Step(d, exe, t, prefix, converter)
  }

  /** Per-title handlers with the facts above about every title and file
      system. */
  ghost predicate LogsTitles(handle: (Dirs, Title) -> TitleStep) {
    forall d, t :: EntryFacts(d, t, handle(d, t))
  }

  ghost predicate KeepsTemplate(handle: (Dirs, Title) -> TitleStep) {
    forall d, t :: TemplateFacts(d, handle(d, t))
  }

  ghost predicate StagesStubs(handle: (Dirs, Title) -> TitleStep, prefix: string) {
    forall d, t {:trigger DestFacts(d, prefix, handle(d, t))} :: DestFacts(d, prefix, handle(d, t))
  }

  ghost predicate Sound(handle: (Dirs, Title) -> TitleStep, prefix: string) {
    LogsTitles(handle) && KeepsTemplate(handle) && StagesStubs(handle, prefix)
  }

  /** `processBinDumps`' own loop body is such a handler. */
  lemma HandleSound(exe: string, prefix: string, converter: nat -> ConverterRun)
    ensures Sound(Handle(exe, prefix, converter), prefix)
  {
    var handle := Handle(exe, prefix, converter);
    forall d, t ensures EntryFacts(d, t, handle(d, t)) {
      StepEntry(d, exe, t, prefix, converter);
    }
    forall d, t ensures TemplateFacts(d, handle(d, t)) {
      StepKeepsTemplate(d, exe, t, prefix, converter);
    }
    forall d, t ensures DestFacts(d, prefix, handle(d, t)) {
      StepDest(d, exe, t, prefix, converter);
    }
  }

  datatype Status = Completed | Aborted(error: Error)

  /** The file system after a run, how it ended, and one log entry per
      title handled. */
  datatype Outcome = Outcome(status: Status, dirs: Dirs, log: seq<TitleLog>)

  function Prepend(entries: seq<TitleLog>, o: Outcome): Outcome {
    o.(log := entries + o.log)
  }

  /** The loop of `processBinDumps` over the resolved cue sheets, from file
      system `d`, with loop body `handle`; a title whose body fails ends the
      run. */
  function RunTitles(d: Dirs, handle: (Dirs, Title) -> TitleStep, titles: seq<Title>): (o: Outcome)
    decreases |titles|
  {
    if titles == [] then Outcome(Completed, d, [])
    else
      var s := handle(d, titles[0]);
      if !s.ok then Outcome(Aborted(MissingTemplate), s.dirs, [s.entry])
      else Prepend([s.entry], RunTitles(s.dirs, handle, titles[1..]))
  }

  /** A run over one title: that title's step, and the run completes unless
      its stub could not be staged. */
  lemma SingleTitleRun(d: Dirs, handle: (Dirs, Title) -> TitleStep, t: Title)
    ensures var s := handle(d, t);
      RunTitles(d, handle, [t]) == Outcome(if s.ok then Completed else Aborted(MissingTemplate), s.dirs, [s.entry])
  {
    assert [t][1..] == [];
  }

  /** `processBinDumps` once the cue sheets are listed: no cue sheet aborts
      before any title is touched. */
  function Pipeline(d: Dirs, exe: string, src: Source, cues: seq<string>, prefix: string,
                    converter: nat -> ConverterRun): Outcome
  {
    if cues == [] then Outcome(Aborted(NoCueSheets), d, [])
    else RunTitles(d, Handle(exe, prefix, converter), ResolveAll(src, cues))
  }

  /** Titles are handled in order, one log entry each: the i-th entry is the
      i-th title's; a run stops early only on a title whose stub could not
      be staged. */
  lemma {:induction false} RunFollowsCues(d: Dirs, handle: (Dirs, Title) -> TitleStep, titles: seq<Title>, prefix: string)
    requires LogsTitles(handle) && KeepsTemplate(handle)
    ensures var o := RunTitles(d, handle, titles);
      && |o.log| <= |titles|
      && (o.status == Completed ==> |o.log| == |titles|)
      && (o.status.Aborted? ==> o.status.error == MissingTemplate && o.log != [] && Staged(o.log[|o.log| - 1]))
      && forall i :: 0 <= i < |o.log| ==> LogsLookup(o.log[i], titles[i].lookup)
    decreases |titles|
  {
    if titles != [] {
      var s := handle(d, titles[0]);
      if s.ok {
        RunFollowsCues(s.dirs, handle, titles[1..], prefix);
        var o := RunTitles(d, handle, titles);
        var rest := RunTitles(s.dirs, handle, titles[1..]);
        forall i | 0 <= i < |o.log| ensures LogsLookup(o.log[i], titles[i].lookup) {
          if i > 0 {
            assert o.log[i] == rest.log[i - 1];
            assert titles[1..][i - 1] == titles[i];
          }
        }
      }
    }
  }

  /** The template is never touched by a run, so a run that starts with one
      completes. */
  lemma {:induction false} RunKeepsTemplate(d: Dirs, handle: (Dirs, Title) -> TitleStep, titles: seq<Title>, prefix: string)
    requires KeepsTemplate(handle) && Template in d.work
    ensures var o := RunTitles(d, handle, titles);
      o.status == Completed && Template in o.dirs.work && o.dirs.work[Template] == d.work[Template]
    decreases |titles|
  {
    if titles != [] {
      var s := handle(d, titles[0]);
      RunKeepsTemplate(s.dirs, handle, titles[1..], prefix);
    }
  }

  /** A run only adds to the destination, never alters a VCD that is there,
      and only appends to the converter log. */
  lemma {:induction false} RunGrowsDest(d: Dirs, handle: (Dirs, Title) -> TitleStep, titles: seq<Title>, prefix: string)
    requires KeepsTemplate(handle) && StagesStubs(handle, prefix)
    ensures var o := RunTitles(d, handle, titles);
      && d.dest.Keys <= o.dirs.dest.Keys
      && (forall a :: VcdName(a) in d.dest ==> o.dirs.dest[VcdName(a)] == d.dest[VcdName(a)])
      && |d.calls| <= |o.dirs.calls| && o.dirs.calls[..|d.calls|] == d.calls
    decreases |titles|
  {
    if titles != [] {
      var s := handle(d, titles[0]);
      assert DestFacts(d, prefix, s);
      if Staged(s.entry) {
        forall a ensures VcdName(a) != StubName(prefix, s.entry.name) {
          DerivedNamesDistinct(a, s.entry.name, prefix);
        }
      }
      assert d.dest.Keys <= s.dirs.dest.Keys;
      assert forall a :: VcdName(a) in d.dest ==> s.dirs.dest[VcdName(a)] == d.dest[VcdName(a)];
      if s.ok {
        RunGrowsDest(s.dirs, handle, titles[1..], prefix);
        var o := RunTitles(s.dirs, handle, titles[1..]);
        assert o.dirs.calls[..|d.calls|] == o.dirs.calls[..|s.dirs.calls|][..|d.calls|];
      }
    }
  }

  /** A destination entry holding the template keeps it: later titles only
      overwrite entries with the template again. */
  lemma {:induction false} StubStays(d: Dirs, handle: (Dirs, Title) -> TitleStep, titles: seq<Title>, prefix: string, k: string)
    requires KeepsTemplate(handle) && StagesStubs(handle, prefix)
    requires Template in d.work && k in d.dest && d.dest[k] == d.work[Template]
    ensures var o := RunTitles(d, handle, titles);
      k in o.dirs.dest && o.dirs.dest[k] == d.work[Template]
    decreases |titles|
  {
    if titles != [] {
      var s := handle(d, titles[0]);
      assert DestFacts(d, prefix, s);
      assert k in s.dirs.dest && s.dirs.dest[k] == d.work[Template];
      StubStays(s.dirs, handle, titles[1..], prefix, k);
    }
  }

  /** Every title whose conversion returned 1 got its stub: after a
      completed run both its VCD and its stub, a copy of the template, are in
      the destination. */
  lemma {:induction false} ConvertedTitlesStaged(d: Dirs, handle: (Dirs, Title) -> TitleStep, titles: seq<Title>,
                                                 prefix: string, i: nat)
    requires KeepsTemplate(handle) && StagesStubs(handle, prefix)
    requires var o := RunTitles(d, handle, titles);
      o.status == Completed && i < |o.log| && Staged(o.log[i])
    ensures var o := RunTitles(d, handle, titles);
      && Template in d.work
      && VcdName(o.log[i].name) in o.dirs.dest
      && StubName(prefix, o.log[i].name) in o.dirs.dest
      && o.dirs.dest[StubName(prefix, o.log[i].name)] == d.work[Template]
    decreases |titles|
  {
    var s := handle(d, titles[0]);
    var rest := RunTitles(s.dirs, handle, titles[1..]);
    if i == 0 {
      assert DestFacts(d, prefix, s);
      RunGrowsDest(s.dirs, handle, titles[1..], prefix);
      StubStays(s.dirs, handle, titles[1..], prefix, StubName(prefix, s.entry.name));
    } else {
      assert RunTitles(d, handle, titles).log[i] == rest.log[i - 1];
      ConvertedTitlesStaged(s.dirs, handle, titles[1..], prefix, i - 1);
    }
  }

  /** Nothing else is added to the destination: every new entry is the VCD
      or the stub of a title whose conversion returned 1. */
  lemma {:induction false} NewEntriesFromConversions(d: Dirs, handle: (Dirs, Title) -> TitleStep, titles: seq<Title>,
                                                     prefix: string, k: string)
    requires StagesStubs(handle, prefix)
    requires var o := RunTitles(d, handle, titles);
      k in o.dirs.dest && k !in d.dest
    ensures var o := RunTitles(d, handle, titles);
      exists i :: 0 <= i < |o.log| && StagedAs(o.log[i], prefix, k)
    decreases |titles|
  {
    var o := RunTitles(d, handle, titles);
    var s := handle(d, titles[0]);
    if k in s.dirs.dest {
      NewEntryOfStep(d, prefix, s, k);
      assert o.log[0] == s.entry;
    } else {
      var rest := RunTitles(s.dirs, handle, titles[1..]);
      NewEntriesFromConversions(s.dirs, handle, titles[1..], prefix, k);
      var j :| 0 <= j < |rest.log| && StagedAs(rest.log[j], prefix, k);
      assert o.log[j + 1] == rest.log[j];
    }
  }

  lemma NewEntryOfStep(d: Dirs, prefix: string, s: TitleStep, k: string)
    requires DestFacts(d, prefix, s)
    requires k in s.dirs.dest && k !in d.dest
    ensures StagedAs(s.entry, prefix, k)
  {
  }

  /** A title whose VCD is already in the destination is not converted
      again and gets no stub. */
  lemma {:induction false} ExistingVcdSkipped(d: Dirs, handle: (Dirs, Title) -> TitleStep, titles: seq<Title>,
                                              prefix: string, i: nat)
    requires LogsTitles(handle) && StagesStubs(handle, prefix)
    requires i < |titles| && i < |RunTitles(d, handle, titles).log|
    requires Truthy(titles[i].lookup) && VcdName(titles[i].lookup.name) in d.dest
    ensures RunTitles(d, handle, titles).log[i] == AlreadyConverted(titles[i].lookup.name)
    decreases |titles|
  {
    var s := handle(d, titles[0]);
    if i > 0 {
      assert DestFacts(d, prefix, s);
      var rest := RunTitles(s.dirs, handle, titles[1..]);
      assert RunTitles(d, handle, titles).log[i] == rest.log[i - 1];
      assert titles[1..][i - 1] == titles[i];
      ExistingVcdSkipped(s.dirs, handle, titles[1..], prefix, i - 1);
    }
  }

  /** When every accepted title's VCD is already in the destination, a run
      changes nothing: no converter invocation, no stub. */
  lemma {:induction false} RunWithAllVcdsIsNoOp(d: Dirs, handle: (Dirs, Title) -> TitleStep, titles: seq<Title>, prefix: string)
    requires LogsTitles(handle)
    requires forall t :: t in titles && Truthy(t.lookup) ==> VcdName(t.lookup.name) in d.dest
    ensures var o := RunTitles(d, handle, titles);
      o.status == Completed && o.dirs == d && forall i :: 0 <= i < |o.log| ==> !o.log[i].Converted?
    decreases |titles|
  {
    if titles != [] {
      var s := handle(d, titles[0]);
      assert titles[0] in titles;
      RunWithAllVcdsIsNoOp(d, handle, titles[1..], prefix);
    }
  }

  /** Re-running `processBinDumps`' loop over the same titles: every title
      converted in the first run is found already converted in the second,
      which invokes no converter and stages no stub for it. */
  lemma Rerun(d: Dirs, exe: string, titles: seq<Title>, prefix: string,
              first: nat -> ConverterRun, second: nat -> ConverterRun, i: nat)
    requires var o := RunTitles(d, Handle(exe, prefix, first), titles);
      o.status == Completed && i < |o.log| && Staged(o.log[i])
    ensures var o := RunTitles(d, Handle(exe, prefix, first), titles);
      var o2 := RunTitles(o.dirs, Handle(exe, prefix, second), titles);
      o2.status == Completed && i < |o2.log| && o2.log[i] == AlreadyConverted(o.log[i].name)
  {
    var h1, h2 := Handle(exe, prefix, first), Handle(exe, prefix, second);
    HandleSound(exe, prefix, first);
    HandleSound(exe, prefix, second);
    var o := RunTitles(d, h1, titles);
    ConvertedTitlesStaged(d, h1, titles, prefix, i);
    RunKeepsTemplate(d, h1, titles, prefix);
    RunKeepsTemplate(o.dirs, h2, titles, prefix);
    RunFollowsCues(d, h1, titles, prefix);
    RunFollowsCues(o.dirs, h2, titles, prefix);
    ExistingVcdSkipped(o.dirs, h2, titles, prefix, i);
  }

  /** The file system a script run works on. */
  class Volumes {
    var dest: map<string, Blob>
    var work: map<string, Blob>
    var calls: seq<Call>

    function State(): Dirs
      reads this
    {
      Dirs(dest, work, calls)
    }

    /** `convertBinToVcd(cueFile, destDir, binName)` with converter `exe`,
        which behaves as `run` if it is invoked. */
    method ConvertBinToVcd(exe: string, cueFile: string, binName: string, run: ConverterRun) returns (code: int)
      modifies this
      ensures code in {-1, 0, 1}
      ensures Conversion(code, State()) == Convert(old(State()), exe, cueFile, binName, run)
    {
      var vcdName := VcdName(binName);
      if vcdName in dest {
        return 0;
      }
      calls := calls + [Call(exe, cueFile, vcdName)];
      if run.output.Wrote? {
        work := work[vcdName := run.output.data];
      }
      if run.exitCode == 1 {
        if vcdName in work {
          dest := dest[vcdName := work[vcdName]];
          work := work - {vcdName};
          return 1;
        }
        return -1;
      }
      return 0;
    }

    /** Copies the template to `fileName` in the destination; `ok` is false
        (the copy raises) when there is no template. */
    method CopyTemplate(fileName: string) returns (ok: bool)
      modifies this
      ensures ok == StageStub(old(State()), fileName).Ok?
      ensures State() == if ok then StageStub(old(State()), fileName).value else old(State())
    {
      if Template !in work {
        return false;
      }
      dest := dest[fileName := work[Template]];
      return true;
    }

    /** The body of `processBinDumps`' loop for title `t`; `ok` is false
        when staging its stub raised. */
    method HandleTitle(exe: string, t: Title, prefix: string, converter: nat -> ConverterRun) returns (ok: bool)
      modifies this
      ensures var s := Step(old(State()), exe, t, prefix, converter);
        ok == s.ok && State() == s.dirs
    {
      if !Truthy(t.lookup) {
        return true;
      }
      var code := ConvertBinToVcd(exe, t.cue, t.lookup.name, converter(|calls|));
      if code == 1 {
        ok := CopyTemplate(StubName(prefix, t.lookup.name));
      } else {
        ok := true;
      }
    }

    /** The loop of `processBinDumps`: the cue sheets in order, the `n`-th
        converter invocation behaving as `converter(n)`. */
    method ProcessCues(exe: string, src: Source, cues: seq<string>, prefix: string,
                       converter: nat -> ConverterRun) returns (status: Status)
      modifies this
      ensures var o := RunTitles(old(State()), Handle(exe, prefix, converter), ResolveAll(src, cues));
        status == o.status && State() == o.dirs
    {
      ghost var handle := Handle(exe, prefix, converter);
      ghost var titles := ResolveAll(src, cues);
      ghost var log: seq<TitleLog> := [];
      var i := 0;
      while i < |cues|
        invariant 0 <= i <= |cues|
        invariant RunTitles(old(State()), handle, titles) == Prepend(log, RunTitles(State(), handle, titles[i..]))
      {
        var cue := cues[i];
        var cbin := GetBinName(src.firstLine(cue), src.listing);
        assert titles[i..][0] == Title(cue, cbin);
        assert titles[i..][1..] == titles[i + 1..];
        ghost var s := handle(State(), Title(cue, cbin));
        var ok := HandleTitle(exe, Title(cue, cbin), prefix, converter);
        if !ok {
          return Aborted(MissingTemplate);
        }
        log := log + [s.entry];
        i := i + 1;
      }
      return Completed;
    }
  }
}
