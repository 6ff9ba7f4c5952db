# Pops-Games-Setup in Dafny

A model of the two batch-conversion scripts of Pops-Games-Setup:

- `pops_games_setup.py` converts PlayStation One disc dumps to POPS `.VCD`
  images. It takes a prefix argument, `XX` (USB loader) or `SB` (SMB loader).
- `auto_pop_bin.py` is its earlier version. It uses another converter build and
  always the prefix `XX`.

Both scripts do the same thing with a source directory. They list its cue
sheets and read each sheet's first line to find the `.bin` image it names. For
an image that is listed, they run the external converter and move the `.VCD` it
writes from the working directory into the destination. They then copy the
loader template `POPSTARTER.ELF` into the destination as
`<prefix>.<title>.ELF`.

The model has six modules:

- `PyStr` gives the Python string operations the scripts use (`find`,
  `replace`, `strip`, `upper`) with their Python semantics.
- `Titles` covers what is computed from one cue sheet: the cue filter,
  `getBinName`, and the derived `.VCD` and `.ELF` names.
- `Staging` covers the file system a run changes and the per-title loop.
  - The destination and working directories are maps from names to contents,
    and the converter calls are a log.
  - The source directory is an unchanging listing plus each file's first line.
  - The converter is an oracle `converter: nat -> ConverterRun`. For its n-th
    invocation it gives an exit code, and says whether it wrote the requested
    VCD into the working directory.
  - Class `Volumes` holds the changing state. Its methods update it in place.
    `ConvertBinToVcd`, `CopyTemplate`, `HandleTitle` and `ProcessCues` are
    proved against the specification functions `Convert`, `StageStub`, `Step`
    and `RunTitles` respectively.
- `Scenarios` holds small source directories and what a run does with them.
- `PopsGamesSetup` and `AutoPopBin` are the two scripts' own entry points.
  `CreatePopStarterCopy` and `CreatePopsElf` model the scripts' stub copy
  on its own. Inside the loop, `Volumes.HandleTitle` inlines them as a call
  of `CopyTemplate` with the stub name.

The run lemmas in `Staging` are stated for any per-title handler that has the
facts proved about `Step` (`Sound`). `HandleSound` proves that the scripts' own
loop body is such a handler.

## Model

| member | source | states |
|---|---|---|
| PyStr.Find | pops_games_setup.py:86 | `str.find`: `-1` exactly when the pattern occurs nowhere; otherwise it occurs at the result and at no earlier index |
| PyStr.RemoveChar | pops_games_setup.py:96 | removing `"` leaves no quote, and every other character is kept as often as it occurred |
| PyStr.ReplaceChars | pops_games_setup.py:96 | every character of a `replace` result comes from the subject or from the replacement |
| PyStr.ReplaceSkipPrefix | pops_games_setup.py:96 | `replace` copies through unchanged a prefix holding no first character of the pattern |
| PyStr.ReplaceOne | pops_games_setup.py:96 | `replace` substitutes a single occurrence that nothing else around it could start |
| PyStr.ReplaceTwo | pops_games_setup.py:96 | `replace` substitutes both of two such occurrences (the two quotes of a cue line) |
| PyStr.ReplaceAbsent | pops_games_setup.py:105 | `replace` leaves a subject without an occurrence unchanged |
| PyStr.ReplaceNoStart | pops_games_setup.py:96 | `replace` copies through unchanged a prefix at which no occurrence of the pattern starts |
| PyStr.ReplaceSingle | pops_games_setup.py:96 | `replace` substitutes one occurrence of a pattern whose first character does not recur in it, between two parts that lack the pattern |
| PyStr.NoStartBefore | pops_games_setup.py:96 | no occurrence starts inside a part that lacks the pattern when what follows begins with a character the pattern has only at its front |
| PyStr.AbsentAround | pops_games_setup.py:96 | two parts that lack the pattern, joined by a character not in it, still lack it |
| PyStr.AbsentAfter | pops_games_setup.py:86 | two parts that lack the pattern, the second beginning with a character the pattern has only at its front, still lack it when joined |
| PyStr.NoOccurrenceAfter | pops_games_setup.py:86 | a pattern occurs nowhere in `a + t` when `a` lacks its first character and `t` lacks one of its characters |
| PyStr.StripStartDropsSpace | pops_games_setup.py:104 | `lstrip` removes exactly the leading run of whitespace, the full Python whitespace set |
| PyStr.StripEndDropsSpace | pops_games_setup.py:104 | `rstrip` removes exactly the trailing run of whitespace |
| PyStr.StripTrims | pops_games_setup.py:104 | `strip` returns a slice of its argument that neither starts nor ends with whitespace; everything it dropped is whitespace |
| PyStr.StripChars | pops_games_setup.py:104 | `strip` introduces no character |
| PyStr.StripAround | pops_games_setup.py:104 | whitespace around an unpadded middle is stripped to exactly that middle |
| PyStr.StripUnpadded | pops_games_setup.py:44 | `strip` leaves a string without surrounding whitespace unchanged |
| PyStr.StripIdempotent | pops_games_setup.py:111 | stripping twice is stripping once |
| PyStr.Upper | pops_games_setup.py:44 | `upper` keeps the length, leaves no lower-case letter, and changes a character only by turning a lower-case letter into its capital |
| PyStr.UpperIdempotent | pops_games_setup.py:44 | upper-casing twice is upper-casing once |
| PyStr.StripUpperCommute | pops_games_setup.py:44 | `prefix.upper().strip()` equals `prefix.strip().upper()` |
| Titles.CueFilter | pops_games_setup.py:81-89 | the cue sheets are exactly the listed entries whose name contains `.cue`, and no more than the listing holds |
| Titles.CueFilterInOrder | pops_games_setup.py:85-87 | the cue sheets appear in listing order |
| Titles.CueFilterCounts | pops_games_setup.py:85-87 | each cue sheet is kept as often as it is listed; nothing else is kept |
| Titles.CueFilterSnoc | pops_games_setup.py:85-87 | one more listed entry appends it to the cue sheets exactly when it is a cue sheet |
| Titles.GetBinName | pops_games_setup.py:91-107 | unsupported (`''`) exactly when the token-stripped line has no `.bin`; missing (`None`) exactly when it has one but its stripped form is not listed; otherwise found |
| Titles.CueLineTokens | pops_games_setup.py:96 | on a first line `FILE "<image>" BINARY`, where the image name holds neither `FILE` nor `BINARY` and no `"` (`Final Fantasy.bin`, `Crash Bandicoot.bin`, `Tekken.3.bin`), removing the tokens and quotes leaves the image between a space and a space plus line break |
| Titles.WellFormedCueSheet | pops_games_setup.py:91-107 | a well-formed cue sheet naming `<base>.bin`, where `<base>` holds neither token, no `"` and no `.bin` and does not start with whitespace, is found exactly when that image is listed, as ` <base> ` plus line break, and is missing otherwise |
| Titles.PaddedNames | pops_games_setup.py:111 | from that padded name the VCD `<base>.VCD` and the stub `<prefix>.<base>.ELF` are derived, for any non-empty `<base>` without whitespace at either end |
| Titles.OtherImageUnsupported | pops_games_setup.py:100-102 | a well-formed cue sheet naming an image without `.bin` (`<base>.iso`, say), whose name holds neither token and no `"`, is unsupported whatever the directory holds |
| Titles.FileInImageName | pops_games_setup.py:96 | a `FILE` inside the image name, between parts that hold no `F`, `B` or `"`, is removed with the token: the line reads as if the name lacked it |
| Titles.FoundNameUnquoted | pops_games_setup.py:96-105 | a found name, and its stripped form, contains no `"` |
| Titles.DerivedNamesIgnorePadding | pops_games_setup.py:111 | whitespace around a name changes neither its VCD name nor its stub name |
| Titles.DerivedNamesDistinct | pops_games_setup.py:137-144 | a VCD name is never a stub name, and never the template's own name |
| Titles.StubNameInjective | pops_games_setup.py:139 | under one prefix, equal stub names come from names that strip to the same string |
| Staging.Convert | pops_games_setup.py:109-135 | `convertBinToVcd` returns only `-1`, `0` or `1` |
| Staging.ConvertOutcome | pops_games_setup.py:109-135 | an existing VCD gives 0 with nothing changed; otherwise exactly one converter call; 1 exactly when exit code 1 and the VCD is in the working directory, then moved into the destination; -1 exactly when exit code 1 and no VCD; on anything but 1 the destination is unchanged |
| Staging.StepEntry | pops_games_setup.py:66-79 | the title's log entry tells how its cue sheet resolved and whether its VCD was already there; only a conversion changes the file system |
| Staging.StepKeepsTemplate | pops_games_setup.py:66-79 | only staging a stub without a template stops the run; the template is never touched; converter calls are only appended |
| Staging.StepDest | pops_games_setup.py:75-76 | the destination changes only for a title converted with code 1: its VCD arrives and then its stub, a copy of the template |
| Staging.HandleSound | pops_games_setup.py:66-79 | the scripts' own loop body has the three properties above for every title and every file system |
| Staging.SingleTitleRun | pops_games_setup.py:66-79 | a run over one title is that title's step, completed unless its stub could not be staged |
| Staging.RunFollowsCues | pops_games_setup.py:66-79 | one log entry per title, in order, each telling how that title resolved; a run stops early only on a title whose stub could not be staged |
| Staging.RunKeepsTemplate | pops_games_setup.py:137-146 | with a template present, a run completes and leaves the template as it was |
| Staging.RunGrowsDest | pops_games_setup.py:66-79 | a run only adds to the destination, never alters an existing VCD, and only appends converter calls |
| Staging.StubStays | pops_games_setup.py:144 | a destination entry holding the template still holds it after the run |
| Staging.ConvertedTitlesStaged | pops_games_setup.py:75-76 | after a completed run, every title converted with code 1 has both its VCD and its stub, a copy of the template, in the destination |
| Staging.NewEntriesFromConversions | pops_games_setup.py:75-76 | every new destination entry is the VCD or the stub of a title converted with code 1 |
| Staging.NewEntryOfStep | pops_games_setup.py:75-76 | the same for a single title's step |
| Staging.ExistingVcdSkipped | pops_games_setup.py:113-115 | a title whose VCD is already in the destination is logged as already converted |
| Staging.RunWithAllVcdsIsNoOp | pops_games_setup.py:113-115 | when every accepted title's VCD is already there, a run completes, changes nothing and converts nothing |
| Staging.Rerun | pops_games_setup.py:57-79 | running again over the same titles finds every title converted in the first run already converted, and completes |
| Staging.Volumes.ConvertBinToVcd | pops_games_setup.py:109-135 | the in-place conversion returns `Convert`'s code and leaves `Convert`'s file system |
| Staging.Volumes.CopyTemplate | pops_games_setup.py:144 | the in-place copy succeeds exactly when `StageStub` does and leaves its file system (the stub added or overwritten); when the template is missing it changes nothing |
| Staging.Volumes.HandleTitle | pops_games_setup.py:67-79 | one pass of the loop body changes the state as `Step` does and reports whether the run may go on |
| Staging.Volumes.ProcessCues | pops_games_setup.py:66-79 | the loop leaves the state, and ends with the status, that `RunTitles` gives over the resolved cue sheets |
| Scenarios.OneTitleResolves | pops_games_setup.py:81-107 | in a directory with `<base>.cue` and `<base>.bin`, the one cue sheet is found and its image accepted |
| Scenarios.CueThenImage | pops_games_setup.py:85-87 | of a cue sheet and an image named after it (a base without `.cue`, an extension a dot and no `c`), only the cue sheet is taken |
| Scenarios.OneTitleFirstRun | pops_games_setup.py:57-79 | a first run with a succeeding converter makes one converter call, for `<base>.VCD`; the destination then holds exactly `<base>.VCD` and `<prefix>.<base>.ELF` |
| Scenarios.FirstConversion | pops_games_setup.py:67-76 | the single step of that run |
| Scenarios.OneTitleAlreadyConverted | pops_games_setup.py:113-115 | with `<base>.VCD` already present the run invokes no converter and changes nothing |
| Scenarios.IsoTitleResolves | pops_games_setup.py:100-102 | a cue sheet naming `<base>.iso` is found and rejected as unsupported |
| Scenarios.IsoImageSkipped | pops_games_setup.py:70-71 | such a title is skipped: the run completes, changes nothing and invokes no converter |
| Scenarios.ProfileImageMissing | pops_games_setup.py:96-107 | a cue sheet naming `PROFILE.bin` is reported missing even when `PROFILE.bin` is listed |
| PopsGamesSetup.ValidateElfPrefix | pops_games_setup.py:42-49 | an accepted prefix is `XX` or `SB` |
| PopsGamesSetup.PrefixAcceptance | pops_games_setup.py:42-49 | accepted exactly when the stripped argument is `xx`/`sb` in any letter case; the result is its upper-case form; a rejection names the upper-cased, stripped argument |
| PopsGamesSetup.ValidateIdempotent | pops_games_setup.py:42-49 | validating an accepted prefix again gives it back |
| PopsGamesSetup.ElfPrefix | pops_games_setup.py:31-34 | `XX` unless a third argument is given, which is then validated; the result is always a valid prefix |
| PopsGamesSetup.GetCueSheets | pops_games_setup.py:81-89 | the loop collects exactly `CueFilter` of the listing |
| PopsGamesSetup.CreatePopStarterCopy | pops_games_setup.py:137-146 | the template is copied as `<prefix>.<name stripped>.ELF`, or the copy raises for want of a template and nothing changes |
| PopsGamesSetup.ProcessBinDumps | pops_games_setup.py:57-79 | the run leaves the state, and ends with the status, that `Pipeline` gives with converter `CUE2POPS.exe` |
| AutoPopBin.GetCueSheets | auto_pop_bin.py:65-77 | an empty path gives no cue sheets; otherwise exactly `CueFilter` of the listing |
| AutoPopBin.CreatePopsElf | auto_pop_bin.py:122-131 | the template is copied as `XX.<name stripped>.ELF`, or the copy raises and nothing changes |
| AutoPopBin.AsWritten | auto_pop_bin.py:40-55 | as written, every run aborts before converting or staging anything, with the file system unchanged and nothing logged |
| AutoPopBin.ProcessBinDumpsAsWritten | auto_pop_bin.py:40-55 | as written, the run ends with `AsWritten`'s status and changes nothing: no cue sheet gives `Cue files not found`; any cue sheet gives a `NameError` for `cBin` |
| AutoPopBin.ProcessBinDumps | auto_pop_bin.py:40-63 | corrected: the run leaves the state, and ends with the status, that `Pipeline` gives with converter `CUE2POPS_2_3.exe` and prefix `XX` |
| AutoPopBin.AsWrittenAgreesOnlyWithoutCues | auto_pop_bin.py:44-55 | the as-written run equals the corrected one exactly when there is no cue sheet |
| AutoPopBin.CBinNameErrorSkipsTitle | auto_pop_bin.py:51-60 | for `<base>.cue` and `<base>.bin` and a succeeding converter, the as-written run aborts with nothing done; the corrected run converts `<base>.VCD` and stages `XX.<base>.ELF` |

## Left out

- All I/O is modelled on values: `os.listdir`, `open`/`readline`, `subprocess.call`, `os.path.exists`, `shutil.move` and `shutil.copy`.
- The converter itself is an oracle. What it writes, and its exit code, are parameters.
- `validatePath` (an `os.path.exists` check) and the argument count checks in `main` are not modelled. Nor is the `IndexError` that `main` raises and prints when only the source path is given. Only the prefix choice is modelled (`ElfPrefix`).
- Everything printed (progress lines, and the error messages `main` prints) is left out. Errors are values of `Error`.
- A converter call records the cue sheet's name, not the joined path `os.path.join(sourceDir, cue)`.
- The source directory is taken to be distinct from the destination and from the working directory. A run whose converter or copy writes into the listed directory is not modelled.
- The destination is taken to be distinct from the working directory. When they are the same, `shutil.move` raises (pops_games_setup.py:129, auto_pop_bin.py:114); the model keeps two separate maps.
- File names are compared as exact strings, as on a case-sensitive file system. The scripts are written for Windows, where `game.BIN` and `game.bin` name the same file; case folding is not modelled.
- A converter that cannot be launched makes `subprocess.call` (pops_games_setup.py:118, auto_pop_bin.py:106) raise and end the run. The oracle always returns an exit code.
- Titles.CueLineTokens: stated for image names that hold neither `FILE` nor `BINARY` and no `"`. The scripts remove those from the name as well, and `Titles.FileInImageName` shows what that does for `FILE`.
- Titles.WellFormedCueSheet: stated for a `<base>` that holds neither token, no `"` and no `.bin` and does not start with whitespace. Other names fall under `Titles.GetBinName`'s general contract.
- Titles.OtherImageUnsupported: stated for image names that hold neither token and no `"`, as for `Titles.CueLineTokens`.
- Titles.PaddedNames: stated for a non-empty `<base>` without whitespace at either end, which is what `strip` leaves of any name with a non-space character.
- The scenario lemmas in `Scenarios` are stated for a title name `<base>` that satisfies `PlainBase`: non-empty, no whitespace at its ends, neither `FILE` nor `BINARY`, no `"`, and neither `.bin` nor `.cue` inside it. Names that break one of these are covered by `Titles.GetBinName`'s contract, and `FILE` inside a name by `Scenarios.ProfileImageMissing`.
- Reading a cue sheet that cannot be opened or decoded raises in the scripts. The model gives every listed file a first line.
- PyStr.Upper: only ASCII `a`–`z` are mapped. Python's `upper` also maps other letters, some of them to several characters. One consequence: Python maps `ſ` (U+017F) to `S`, so `validateElfPrefix('ſb')` returns `SB`; `PopsGamesSetup.PrefixAcceptance` rejects that input.
- Titles.FileInImageName: stated only when the text before and after the inner `FILE` holds no `F`, `B` or `"`. Otherwise that text can join into a new `FILE` that the single left-to-right pass of `replace` does not remove (`FIFILELE` leaves `FILE`).
- A run lemma in `Staging` speaks of any handler with the step facts (`Sound`), not only of `Handle`. `HandleSound` links the two.

The model follows the code as written, also where it behaves unexpectedly:

- The tokens `FILE` and `BINARY` are removed anywhere in the line, including inside the image name (`Scenarios.ProfileImageMissing`).
- `.bin` may occur anywhere in the line, not only as the extension.
- The found name keeps its surrounding whitespace and line break, and `replace` removes every `.bin` in it. Whitespace is only stripped when the `.VCD` and `.ELF` names are derived.
- A missing template raises out of the loop and ends the whole run. It is not a per-title skip.

## Findings

| source | as written | input that shows it | evidently intended | confidence | as-written member | corrected member |
|---|---|---|---|---|---|---|
| auto_pop_bin.py:51-53 | the lookup result is bound to `cbin`, but the test reads `cBin`, a name never defined, so the first title raises `NameError`, and `main` catches and prints it | a source directory with `game.cue` (first line `FILE "game.bin" BINARY`) and `game.bin` | test and use the lookup result under the name it was bound to, as `pops_games_setup.py` does | high; not executed | AutoPopBin.ProcessBinDumpsAsWritten, AutoPopBin.CBinNameErrorSkipsTitle | AutoPopBin.ProcessBinDumps |
