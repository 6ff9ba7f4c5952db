/**
 What both scripts compute about one title without touching the disk:
 which directory entries are cue sheets, which binary image a cue sheet's
 first line names, and the names of the VCD and of the loader stub that
 the title gets in the destination directory.
 */
module Titles {
  import opened PyStr

  /** The run-aborting errors of the scripts (each one a raised `Exception`
      caught and printed by `main`). */
  datatype Error =
    | InvalidPrefix(prefix: string)    // validateElfPrefix
    | NoCueSheets                      // 'Cue files not found'
    | MissingTemplate                  // shutil.copy of an absent POPSTARTER.ELF
    | UndefinedName(name: string)      // NameError

  datatype Result<T> = Ok(value: T) | Err(error: Error)

  const CueMarker := ".cue"
  const BinExt := ".bin"
  const VcdExt := ".VCD"
  const ElfExt := ".ELF"

  /** A directory entry is taken for a cue sheet when `.cue` occurs anywhere
      in its name (case-sensitive). */
  predicate IsCueSheet(name: string) {
    Find(name, CueMarker) >= 0
  }

  /** The listing entries that are cue sheets, in listing order. */
  function CueFilter(listing: seq<string>): (cues: seq<string>)
    ensures |cues| <= |listing|
    ensures forall x :: x in cues <==> x in listing && IsCueSheet(x)
  {
    if listing == [] then []
    else (if IsCueSheet(listing[0]) then [listing[0]] else []) + CueFilter(listing[1..])
  }

  /** `a` is `b` with some elements left out, the others in their order. */
  ghost predicate Subsequence<T>(a: seq<T>, b: seq<T>)
    decreases |b|
  {
    a == [] || (b != [] && (Subsequence(a, b[1..]) || (a[0] == b[0] && Subsequence(a[1..], b[1..]))))
  }

  /** The cue filter keeps the listing's order ... */
  lemma {:induction false} CueFilterInOrder(listing: seq<string>)
    ensures Subsequence(CueFilter(listing), listing)
  {
    if listing != [] {
      CueFilterInOrder(listing[1..]);
      var rest := CueFilter(listing[1..]);
      if IsCueSheet(listing[0]) {
        assert CueFilter(listing) == [listing[0]] + rest;
        assert CueFilter(listing)[1..] == rest;
      } else {
        assert CueFilter(listing) == rest;
      }
    }
  }

  /** ... and keeps every cue sheet as often as the listing has it and
      nothing else. */
  lemma {:induction false} CueFilterCounts(listing: seq<string>)
    ensures forall x :: multiset(CueFilter(listing))[x] == if IsCueSheet(x) then multiset(listing)[x] else 0
  {
    if listing != [] {
      CueFilterCounts(listing[1..]);
      assert listing == [listing[0]] + listing[1..];
    }
  }

  /** Appending an entry to the listing appends it to the filter's result
      when it is a cue sheet. */
  lemma {:induction false} CueFilterSnoc(listing: seq<string>, x: string)
    ensures CueFilter(listing + [x]) == CueFilter(listing) + (if IsCueSheet(x) then [x] else [])
  {
    if listing == [] {
      assert [x][1..] == [];
    } else {
      var head := if IsCueSheet(listing[0]) then [listing[0]] else [];
      assert (listing + [x])[0] == listing[0];
      assert (listing + [x])[1..] == listing[1..] + [x];
      CueFilterSnoc(listing[1..], x);
      assert CueFilter(listing + [x]) == head + CueFilter(listing[1..] + [x]);
    }
  }

  /** The first line of a cue sheet with every `FILE`, then every `BINARY`,
      then every `"` removed. */
  function StripTokens(line: string): string {
    Replace(Replace(Replace(line, "FILE", ""), "BINARY", ""), "\"", "")
  }

  /** What `getBinName` returns: `''` for an unsupported image, `None` for
      an image missing from the directory, otherwise the name. */
  datatype BinLookup =
    | Unsupported           // the stripped line has no `.bin`: returns ''
    | Missing               // the image is not in the listing: returns None
    | Found(name: string)   // the (unstripped) line without `.bin`

  /** Python truthiness of `getBinName`'s result: a found name can still be
      empty, and an empty string is falsy. */
  predicate Truthy(b: BinLookup) {
    b.Found? && b.name != ""
  }

  /** `getBinName` on a cue sheet's first line and its directory listing. */
  function GetBinName(line: string, listing: seq<string>): (r: BinLookup)
    ensures r == Unsupported <==> !Contains(StripTokens(line), BinExt)
    ensures r == Missing <==> Contains(StripTokens(line), BinExt) && Strip(StripTokens(line)) !in listing
    ensures r.Found? ==> Contains(StripTokens(line), BinExt) && Strip(StripTokens(line)) in listing
  {
    var binName := StripTokens(line);
    if Find(binName, BinExt) < 0 then Unsupported
    else if Strip(binName) in listing then Found(Replace(binName, BinExt, ""))
    else Missing
  }

  /** The first line of a cue sheet in the form the scripts expect:
      `FILE "<image>" BINARY` and the line break `readline` keeps. */
  function CueLine(image: string): string {
    "FILE \"" + image + "\" BINARY\n"
  }

  /** On such a line, removing the tokens and quotes leaves the image name
      between a space and a space and line break, provided the name itself
      holds neither token and no `"`. */
  lemma CueLineTokens(image: string)
    requires TokenFree(image)
    ensures StripTokens(CueLine(image)) == " " + image + " \n"
  {
    FileTokenRemoved(image);
    BinaryTokenRemoved(image);
    QuotesRemoved(image);
  }

  /** An image name the token removal leaves alone: it holds neither `FILE`
      nor `BINARY`, and no `"`. */
  predicate TokenFree(image: string) {
    !Contains(image, "FILE") && !Contains(image, "BINARY") && '"' !in image
  }

  /** A name without `"` quoted and padded by blanks holds a token exactly
      when the name does. */
  lemma QuotedAbsent(image: string, pat: string, c: char)
    requires c in pat && ' ' !in pat && '"' !in pat
    requires !Contains(image, pat)
    ensures !Contains(" \"" + image + "\" ", pat)
  {
    NoOccurrence(" ", pat, c);
    AbsentAround(" ", '"', image, pat);
    AbsentAround(" " + ['"'] + image, '"', " ", pat);
    assert " " + ['"'] + image + ['"'] + " " == " \"" + image + "\" ";
  }

  lemma FileTokenRemoved(image: string)
    requires !Contains(image, "FILE") && '"' !in image
    ensures Replace(CueLine(image), "FILE", "") == " \"" + image + "\" BINARY\n"
  {
    var tail := " \"" + image + "\" BINARY\n";
    TailFileFree(image);
    NoOccurrence([], "FILE", 'F');
    ReplaceSingle([], "FILE", tail, "");
    FileLineSplit(image);
  }

  /** The line is `FILE` followed by the rest. */
  lemma FileLineSplit(image: string)
    ensures CueLine(image) == [] + "FILE" + (" \"" + image + "\" BINARY\n")
    ensures [] + "" + (" \"" + image + "\" BINARY\n") == " \"" + image + "\" BINARY\n"
  {
  }

  /** What follows `FILE` on the line holds no second `FILE`. */
  lemma TailFileFree(image: string)
    requires !Contains(image, "FILE") && '"' !in image
    ensures !Contains(" \"" + image + "\" BINARY\n", "FILE")
  {
    var front, back := " \"" + image + "\" ", "BINARY\n";
    QuotedAbsent(image, "FILE", 'F');
    NoOccurrence(back, "FILE", 'F');
    AbsentAfter(front, back, "FILE");
    assert front + back == " \"" + image + "\" BINARY\n";
  }

  lemma BinaryTokenRemoved(image: string)
    requires !Contains(image, "BINARY") && '"' !in image
    ensures Replace(" \"" + image + "\" BINARY\n", "BINARY", "") == " \"" + image + "\" \n"
  {
    QuotedAbsent(image, "BINARY", 'B');
    BinaryAfter(" \"" + image + "\" ");
    BinaryLineSplit(image);
  }

  /** The line after `FILE` is the quoted name, a blank, `BINARY` and the
      line break. */
  lemma BinaryLineSplit(image: string)
    ensures " \"" + image + "\" BINARY\n" == " \"" + image + "\" " + "BINARY\n"
    ensures " \"" + image + "\" " + "\n" == " \"" + image + "\" \n"
  {
  }

  /** `BINARY` and the line break after a part without `BINARY`: only the
      line break is left after it. */
  lemma BinaryAfter(front: string)
    requires !Contains(front, "BINARY")
    ensures Replace(front + "BINARY\n", "BINARY", "") == front + "\n"
  {
    NoOccurrence("\n", "BINARY", 'B');
    ReplaceSingle(front, "BINARY", "\n", "");
    assert front + "BINARY\n" == front + "BINARY" + "\n";
    assert front + "" + "\n" == front + "\n";
  }

  lemma QuotesRemoved(image: string)
    requires '"' !in image
    ensures Replace(" \"" + image + "\" \n", "\"", "") == " " + image + " \n"
  {
    QuoteLineSplit(image);
    ReplaceTwo(" ", image, " \n", "\"", "");
  }

  /** The line after both tokens are gone is the name between two quotes,
      padded by a blank and by a blank and line break. */
  lemma QuoteLineSplit(image: string)
    ensures " \"" + image + "\" \n" == " " + ("\"" + (image + ("\"" + " \n")))
    ensures " " + ("" + (image + ("" + " \n"))) == " " + image + " \n"
  {
  }

  /** A name without the tokens keeps that property when an extension
      without `F`, `B` or `"` is appended after a dot. */
  lemma TokenFreeWithExt(base: string, ext: string)
    requires TokenFree(base) && 'F' !in ext && 'B' !in ext && '"' !in ext
    ensures TokenFree(base + "." + ext)
  {
    NoOccurrence(ext, "FILE", 'F');
    NoOccurrence(ext, "BINARY", 'B');
    AbsentAround(base, '.', ext, "FILE");
    AbsentAround(base, '.', ext, "BINARY");
    assert base + ['.'] + ext == base + "." + ext;
  }

  /** A name without `.bin`, padded by blanks, still holds none. */
  lemma PaddedNoBinExt(image: string)
    requires !Contains(image, BinExt)
    ensures !Contains(" " + image + " \n", BinExt)
  {
    NoOccurrence([], BinExt, '.');
    NoOccurrence("\n", BinExt, '.');
    AbsentAround([], ' ', image, BinExt);
    AbsentAround([] + [' '] + image, ' ', "\n", BinExt);
    assert [] + [' '] + image + [' '] + "\n" == " " + image + " \n";
  }

  /** A well-formed cue sheet naming an image without the tokens and without
      `.bin` (`<base>.iso`, say) is unsupported, whatever the directory
      holds. */
  lemma OtherImageUnsupported(image: string, listing: seq<string>)
    requires TokenFree(image) && !Contains(image, BinExt)
    ensures GetBinName(CueLine(image), listing) == Unsupported
  {
    CueLineTokens(image);
    PaddedNoBinExt(image);
  }

  /** A `FILE` inside the image name, between parts without `F`, `B` or
      `"`, is removed along with the token: the line reads as if the name
      did not contain it. Parts that do hold an `F` can join into a new
      `FILE` that the single pass leaves in place. */
  lemma FileInImageName(a: string, b: string)
    requires 'F' !in a && 'B' !in a && '"' !in a
    requires 'F' !in b && 'B' !in b && '"' !in b
    ensures StripTokens(CueLine(a + "FILE" + b)) == StripTokens(CueLine(a + b))
  {
    var front, back := " \"" + a, b + "\" BINARY\n";
    assert CueLine(a + "FILE" + b) == "" + ("FILE" + (front + ("FILE" + back)));
    assert 'F' !in front && 'F' !in back;
    ReplaceTwo("", front, back, "FILE", "");
    assert "" + ("" + (front + ("" + back))) == " \"" + (a + b) + "\" BINARY\n";
    NoOccurrence(a + b, "FILE", 'F');
    FileTokenRemoved(a + b);
  }

  /** A well-formed cue sheet naming `<base>.bin`, where `<base>` holds
      neither token, no `"` and no `.bin` and does not start with
      whitespace, is accepted exactly when that image is listed, under the
      name ` <base> ` plus line break. */
  lemma WellFormedCueSheet(base: string, listing: seq<string>)
    requires TokenFree(base) && !Contains(base, BinExt)
    requires base == [] || !IsSpace(base[0])
    ensures GetBinName(CueLine(base + BinExt), listing)
         == if base + BinExt in listing then Found(" " + base + " \n") else Missing
  {
    TokenFreeWithExt(base, "bin");
    assert base + "." + "bin" == base + BinExt;
    CueLineTokens(base + BinExt);
    AcceptedLine(CueLine(base + BinExt), base, listing);
  }

  /** A line that reads ` <base>.bin ` plus line break once the tokens are
      removed is looked up under `<base>.bin` and accepted under
      ` <base> ` plus line break. */
  lemma AcceptedLine(line: string, base: string, listing: seq<string>)
    requires StripTokens(line) == " " + (base + BinExt) + " \n"
    requires !Contains(base, BinExt) && (base == [] || !IsSpace(base[0]))
    ensures GetBinName(line, listing)
         == if base + BinExt in listing then Found(" " + base + " \n") else Missing
  {
    assert OccursAt(StripTokens(line), BinExt, 1 + |base|);
    BinExtRemoved(base);
    StripAround(" ", base + BinExt, " \n");
  }

  /** Removing `.bin` from ` <base>.bin ` plus line break leaves ` <base> `
      plus line break. */
  lemma BinExtRemoved(base: string)
    requires !Contains(base, BinExt)
    ensures Replace(" " + (base + BinExt) + " \n", BinExt, "") == " " + base + " \n"
  {
    var front := " " + base;
    NoOccurrence([], BinExt, '.');
    NoOccurrence(" \n", BinExt, '.');
    AbsentAround([], ' ', base, BinExt);
    assert [] + [' '] + base == front;
    ReplaceSingle(front, BinExt, " \n", "");
    assert " " + (base + BinExt) + " \n" == front + BinExt + " \n";
    assert front + "" + " \n" == " " + base + " \n";
  }

  /** From that name the names `<base>.VCD` and `<prefix>.<base>.ELF` are
      derived, for any non-empty base without whitespace at its ends. */
  lemma PaddedNames(base: string, prefix: string)
    requires base != [] && !IsSpace(base[0]) && !IsSpace(base[|base| - 1])
    ensures VcdName(" " + base + " \n") == base + VcdExt
    ensures StubName(prefix, " " + base + " \n") == prefix + "." + base + ElfExt
  {
    StripAround(" ", base, " \n");
  }

  /** An accepted name carries no quote, and neither does its stripped form
      from which the derived file names are built. */
  lemma FoundNameUnquoted(line: string, listing: seq<string>)
    requires GetBinName(line, listing).Found?
    ensures '"' !in GetBinName(line, listing).name
    ensures '"' !in Strip(GetBinName(line, listing).name)
  {
    var unquoted := Replace(Replace(line, "FILE", ""), "BINARY", "");
    RemoveChar(unquoted, '"');
    ReplaceChars(StripTokens(line), BinExt, "");
    StripChars(GetBinName(line, listing).name);
  }

  /** `'%s.VCD' % binName.strip()`: the converted image's name. */
  function VcdName(binName: string): string {
    Strip(binName) + VcdExt
  }

  /** `'%s.%s.ELF' % (prefix, name.strip())`: the loader stub's name. */
  function StubName(prefix: string, name: string): string {
    prefix + "." + Strip(name) + ElfExt
  }

  /** Whitespace around a title's name does not change the names derived
      from it. */
  lemma {:induction false} DerivedNamesIgnorePadding(name: string, prefix: string)
    ensures VcdName(Strip(name)) == VcdName(name)
    ensures StubName(prefix, Strip(name)) == StubName(prefix, name)
  {
    StripIdempotent(name);
  }

  /** A VCD name and a stub name never coincide (they end in `D` and in
      `F`), and neither is the loader template's own name. */
  lemma DerivedNamesDistinct(a: string, b: string, prefix: string)
    ensures VcdName(a) != StubName(prefix, b)
    ensures VcdName(a) != "POPSTARTER.ELF"
  {
    var v, s := VcdName(a), StubName(prefix, b);
    assert v[|v| - 1] == 'D';
    assert s[|s| - 1] == 'F';
    assert "POPSTARTER.ELF"[13] == 'F';
  }

  /** Different stripped names give different stubs under one prefix. */
  lemma StubNameInjective(prefix: string, a: string, b: string)
    requires StubName(prefix, a) == StubName(prefix, b)
    ensures Strip(a) == Strip(b)
  {
    var sa, sb := StubName(prefix, a), StubName(prefix, b);
    assert |Strip(a)| == |Strip(b)|;
    assert Strip(a) == sa[|prefix| + 1..|sa| - 4];
    assert Strip(b) == sb[|prefix| + 1..|sb| - 4];
  }
}
