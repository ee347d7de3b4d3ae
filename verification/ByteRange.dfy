/** The Range header parser and the file server of internal/objects/download.go. */
module ByteRange {
  import opened Wrappers
  import opened Strings

  /** An inclusive byte range. */
  datatype ByteRange = ByteRange(start: int64, end: int64)

  datatype RangeError = BadHeader | BadFormat | BadSuffix | BadStart | BadEnd | OutOfBounds | NoRanges

  const UNIT := "bytes="

  // ---------------------------------------------------------------- what a header means

  /** "first-last", "first-" or "-suffix", with white space allowed around either number. */
  datatype Spec = Full(first: int64, last: int64) | From(first: int64) | Last(suffix: int64)

  /** The bytes a specification asks for in a file of the given size, before any bound is checked. */
  function Asked(spec: Spec, fileSize: int64): (r: (int, int)) {
    match spec
    case Full(first, last) => (first as int, last as int)
    case From(first) => (first as int, fileSize as int - 1)
    case Last(suffix) =>
      (if fileSize as int < suffix as int then 0 else fileSize as int - suffix as int, fileSize as int - 1)
  }

  /** `text` spells `spec`: the two sides of its only dash, each trimmed, are the numbers or are empty. */
  predicate Spells(left: string, right: string, spec: Spec) {
    var a, b := TrimSpace(left), TrimSpace(right);
    match spec
    case Full(first, last) => a != "" && b != "" && ParseInt(a) == Some(first) && ParseInt(b) == Some(last)
    case From(first) => a != "" && b == "" && ParseInt(a) == Some(first)
    case Last(suffix) => a == "" && ParseInt(b) == Some(suffix)
  }

  /** One comma-separated part denotes a range of the file. The code rejects last >= size where section
      14.1.2 of RFC 9110 would clamp it. */
  ghost predicate Denotes(part: string, fileSize: int64, r: ByteRange) {
    exists left, right, spec ::
      '-' !in left && '-' !in right && TrimSpace(part) == left + ['-'] + right && Spells(left, right, spec)
      && Asked(spec, fileSize) == (r.start as int, r.end as int)
      && 0 <= r.start <= r.end < fileSize
  }

  // ---------------------------------------------------------------- the parser

  /** One round of the loop. The int64 arithmetic is the source's. */
  function ParsePart(part: string, fileSize: int64): Result<ByteRange, RangeError>
    requires 0 <= fileSize
  {
    var sides := Split(TrimSpace(part), '-');
    if |sides| != 2 then Err(BadFormat)
    else
      var startStr, endStr := TrimSpace(sides[0]), TrimSpace(sides[1]);
      if startStr == "" then
        var suffix := ParseInt(endStr);
        if suffix.None? then Err(BadSuffix)
        else
          JoinOfSplit(TrimSpace(part), '-');
          SuffixNotNegative(sides[1]);
          var start := fileSize - suffix.value;
          Check(if start < 0 then 0 else start, fileSize - 1, fileSize)
      else if endStr == "" then
        var start := ParseInt(startStr);
        if start.None? then Err(BadStart) else Check(start.value, fileSize - 1, fileSize)
      else
        var start, end := ParseInt(startStr), ParseInt(endStr);
        if start.None? then Err(BadStart)
        else if end.None? then Err(BadEnd)
        else Check(start.value, end.value, fileSize)
  }

  function Check(start: int64, end: int64, fileSize: int64): Result<ByteRange, RangeError> {
    if start < 0 || end >= fileSize || start > end then Err(OutOfBounds) else Ok(ByteRange(start, end))
  }

  /** What is left of a dash-free text after trimming has no minus sign, so no suffix is negative. */
  lemma SuffixNotNegative(s: string)
    ensures '-' !in s && ParseInt(TrimSpace(s)).Some? ==> 0 <= ParseInt(TrimSpace(s)).value
  {
    var pre, post := TrimSpaceParts(s);
    assert '-' !in s ==> '-' !in TrimSpace(s);
  }

  function ParseParts(parts: seq<string>, fileSize: int64): Result<seq<ByteRange>, RangeError>
    requires 0 <= fileSize
  {
    if parts == [] then Ok([])
    else
      var first := ParsePart(parts[0], fileSize);
      if first.Err? then Err(first.error)
      else
        var rest := ParseParts(parts[1..], fileSize);
        if rest.Err? then rest else Ok([first.value] + rest.value)
  }

  function Parse(header: string, fileSize: int64): Result<seq<ByteRange>, RangeError>
    requires 0 <= fileSize
  {
    if !(UNIT <= header) then Err(BadHeader) else ParseParts(Split(header[|UNIT|..], ','), fileSize)
  }

  lemma ParsePartsOfOne(part: string, fileSize: int64)
    requires 0 <= fileSize
    ensures ParseParts([part], fileSize)
            == if ParsePart(part, fileSize).Ok? then Ok([ParsePart(part, fileSize).value])
               else Err(ParsePart(part, fileSize).error)
  {
    assert [part][1..] == [];
    assert ParseParts([], fileSize) == Ok([]);
    if ParsePart(part, fileSize).Ok? {
      assert [ParsePart(part, fileSize).value] + [] == [ParsePart(part, fileSize).value];
    }
  }

  lemma {:induction false} ParsePartsAppend(a: seq<string>, b: seq<string>, fileSize: int64)
    requires 0 <= fileSize
    ensures ParseParts(a + b, fileSize)
            == if ParseParts(a, fileSize).Err? then ParseParts(a, fileSize)
               else if ParseParts(b, fileSize).Err? then ParseParts(b, fileSize)
               else Ok(ParseParts(a, fileSize).value + ParseParts(b, fileSize).value)
  {
    if a == [] {
      assert a + b == b;
      if ParseParts(b, fileSize).Ok? {
        assert [] + ParseParts(b, fileSize).value == ParseParts(b, fileSize).value;
      }
    } else {
      assert (a + b)[1..] == a[1..] + b;
      ParsePartsAppend(a[1..], b, fileSize);
      if ParsePart(a[0], fileSize).Ok? && ParseParts(a[1..], fileSize).Ok? && ParseParts(b, fileSize).Ok? {
        var first, rest, last :=
          [ParsePart(a[0], fileSize).value], ParseParts(a[1..], fileSize).value, ParseParts(b, fileSize).value;
        assert first + (rest + last) == (first + rest) + last;
      }
    }
  }

  lemma ParsePartsStep(parts: seq<string>, i: nat, fileSize: int64)
    requires 0 <= fileSize && i < |parts| && ParseParts(parts[..i], fileSize).Ok?
    ensures ParsePart(parts[i], fileSize).Err? ==>
              ParseParts(parts, fileSize) == Err(ParsePart(parts[i], fileSize).error)
    ensures ParsePart(parts[i], fileSize).Ok? ==>
              ParseParts(parts[..i + 1], fileSize)
              == Ok(ParseParts(parts[..i], fileSize).value + [ParsePart(parts[i], fileSize).value])
  {
    assert parts == parts[..i] + parts[i..] && parts[..i + 1] == parts[..i] + [parts[i]];
    ParsePartsAppend(parts[..i], parts[i..], fileSize);
    ParsePartsAppend(parts[..i], [parts[i]], fileSize);
    ParsePartsOfOne(parts[i], fileSize);
  }

  /** The body of the loop: one part of the header. */
  method ParseOne(text: string, fileSize: int64) returns (r: Result<ByteRange, RangeError>)
    requires 0 <= fileSize
    ensures r == ParsePart(text, fileSize)
  {
    var part := TrimSpace(text);
    JoinOfSplit(part, '-');
    if '-' !in part {
      SplitOfPlain(part, '-');
      return Err(BadFormat);
    }
    var sides := Split(part, '-');
    if |sides| != 2 {
      return Err(BadFormat);
    }
    var startStr, endStr := TrimSpace(sides[0]), TrimSpace(sides[1]);
    var start: int64, end: int64 := 0, 0;
    if startStr == "" {
      var suffix := ParseInt(endStr);
      if suffix.None? {
        return Err(BadSuffix);
      }
      SuffixNotNegative(sides[1]);
      start := fileSize - suffix.value;
      if start < 0 {
        start := 0;
      }
      end := fileSize - 1;
    } else if endStr == "" {
      var first := ParseInt(startStr);
      if first.None? {
        return Err(BadStart);
      }
      start, end := first.value, fileSize - 1;
    } else {
      var first := ParseInt(startStr);
      if first.None? {
        return Err(BadStart);
      }
      var last := ParseInt(endStr);
      if last.None? {
        return Err(BadEnd);
      }
      start, end := first.value, last.value;
    }
    if start < 0 || end >= fileSize || start > end {
      return Err(OutOfBounds);
    }
    return Ok(ByteRange(start, end));
  }

  method ParseRange(header: string, fileSize: int64) returns (r: Result<seq<ByteRange>, RangeError>)
    requires 0 <= fileSize
    ensures r == Parse(header, fileSize)
  {
    if !(UNIT <= header) {
      return Err(BadHeader);
    }
    var parts := Split(header[|UNIT|..], ',');
    var ranges: seq<ByteRange> := [];
    for i := 0 to |parts|
      invariant ParseParts(parts[..i], fileSize) == Ok(ranges) && |ranges| == i
    {
      ParsePartsStep(parts, i, fileSize);
      var range := ParseOne(parts[i], fileSize);
      if range.Err? {
        return Err(range.error);
      }
      ranges := ranges + [range.value];
    }
    assert parts[..|parts|] == parts;
    if |ranges| == 0 {
      return Err(NoRanges);
    }
    return Ok(ranges);
  }

  // ---------------------------------------------------------------- the parser computes the meaning

  lemma SidesOf(part: string, left: string, right: string)
    requires '-' !in left && '-' !in right && TrimSpace(part) == left + ['-'] + right
    ensures Split(TrimSpace(part), '-') == [left, right]
  {
    SplitAtFirst(left, right, '-');
    SplitOfPlain(right, '-');
  }

  /** What the parser took a part to spell. */
  function SpecOf(a: string, b: string): Spec
    requires if a == "" then ParseInt(b).Some? else ParseInt(a).Some? && (b != "" ==> ParseInt(b).Some?)
  {
    if a == "" then Last(ParseInt(b).value)
    else if b == "" then From(ParseInt(a).value)
    else Full(ParseInt(a).value, ParseInt(b).value)
  }

  lemma ParsedDenotes(part: string, fileSize: int64, r: ByteRange)
    requires 0 <= fileSize && ParsePart(part, fileSize) == Ok(r)
    ensures Denotes(part, fileSize, r)
  {
    var text := TrimSpace(part);
    JoinOfSplit(text, '-');
    var sides := Split(text, '-');
    var left, right := sides[0], sides[1];
    assert sides[1..] == [right];
    assert text == left + ['-'] + right;
    SuffixNotNegative(right);
    var spec := SpecOf(TrimSpace(left), TrimSpace(right));
    assert Spells(left, right, spec) && Asked(spec, fileSize) == (r.start as int, r.end as int);
  }

  lemma SpelledParses(left: string, right: string, spec: Spec, part: string, fileSize: int64, r: ByteRange)
    requires 0 <= fileSize && '-' !in right && Split(TrimSpace(part), '-') == [left, right]
    requires Spells(left, right, spec) && Asked(spec, fileSize) == (r.start as int, r.end as int) && InFile(r, fileSize)
    ensures ParsePart(part, fileSize) == Ok(r)
  {
    SuffixNotNegative(right);
    match spec
    case Full(first, last) => assert Check(first, last, fileSize) == Ok(r);
    case From(first) => assert Check(first, fileSize - 1, fileSize) == Ok(r);
    case Last(suffix) => assert Check(r.start, fileSize - 1, fileSize) == Ok(r);
  }

  lemma PartMeans(part: string, fileSize: int64, r: ByteRange)
    requires 0 <= fileSize
    ensures ParsePart(part, fileSize) == Ok(r) <==> Denotes(part, fileSize, r)
  {
    if ParsePart(part, fileSize) == Ok(r) {
      ParsedDenotes(part, fileSize, r);
    }
    if Denotes(part, fileSize, r) {
      var left, right, spec :|
        '-' !in left && '-' !in right && TrimSpace(part) == left + ['-'] + right && Spells(left, right, spec)
        && Asked(spec, fileSize) == (r.start as int, r.end as int) && 0 <= r.start <= r.end < fileSize;
      SidesOf(part, left, right);
      SpelledParses(left, right, spec, part, fileSize, r);
    }
  }

  ghost predicate AllDenote(parts: seq<string>, fileSize: int64, ranges: seq<ByteRange>) {
    |parts| == |ranges| && forall i :: 0 <= i < |parts| ==> Denotes(parts[i], fileSize, ranges[i])
  }

  lemma {:induction false} PartsMean(parts: seq<string>, fileSize: int64, ranges: seq<ByteRange>)
    requires 0 <= fileSize
    ensures ParseParts(parts, fileSize) == Ok(ranges) <==> AllDenote(parts, fileSize, ranges)
  {
    if parts != [] {
      if ranges == [] {
        assert !AllDenote(parts, fileSize, ranges);
      } else {
        PartMeans(parts[0], fileSize, ranges[0]);
        PartsMean(parts[1..], fileSize, ranges[1..]);
        assert AllDenote(parts, fileSize, ranges) <==>
               Denotes(parts[0], fileSize, ranges[0]) && AllDenote(parts[1..], fileSize, ranges[1..]) by {
          assert forall i :: 1 <= i < |parts| ==> parts[i] == parts[1..][i - 1];
          assert forall i :: 1 <= i < |ranges| ==> ranges[i] == ranges[1..][i - 1];
        }
        assert ranges == [ranges[0]] + ranges[1..];
      }
    }
  }

  /** Both directions, for every header: parsing succeeds with `ranges` exactly when the header is
      `bytes=` and comma-separated parts that denote them in order. */
  lemma HeaderMeans(header: string, fileSize: int64, ranges: seq<ByteRange>)
    requires 0 <= fileSize
    ensures Parse(header, fileSize) == Ok(ranges) <==>
              exists parts :: |parts| >= 1 && Free(parts, ',') && header == UNIT + Join(parts, ',')
                              && AllDenote(parts, fileSize, ranges)
  {
    if UNIT <= header {
      var rest := header[|UNIT|..];
      assert header == UNIT + rest;
      JoinOfSplit(rest, ',');
      PartsMean(Split(rest, ','), fileSize, ranges);
      forall parts | |parts| >= 1 && Free(parts, ',') && header == UNIT + Join(parts, ',')
        ensures parts == Split(rest, ',')
      {
        assert header[|UNIT|..] == Join(parts, ',');
        SplitOfJoin(parts, ',');
      }
    }
  }

  /** Every accepted range lies inside the file, for every header and size. */
  lemma RangeBounds(header: string, fileSize: int64, ranges: seq<ByteRange>, i: nat)
    requires 0 <= fileSize && Parse(header, fileSize) == Ok(ranges) && i < |ranges|
    ensures 0 <= ranges[i].start <= ranges[i].end < fileSize
    ensures 1 <= ranges[i].end - ranges[i].start + 1 <= fileSize
  {
    PartsMean(Split(header[|UNIT|..], ','), fileSize, ranges);
    assert Denotes(Split(header[|UNIT|..], ',')[i], fileSize, ranges[i]);
  }

  // ---------------------------------------------------------------- printing and parsing back

  function Explicit(r: ByteRange): string
    requires 0 <= r.start && 0 <= r.end
  {
    Decimal(r.start as nat) + ['-'] + Decimal(r.end as nat)
  }

  predicate InFile(r: ByteRange, fileSize: int64) {
    0 <= r.start <= r.end < fileSize
  }

  /** One printed part with white space before and after. */
  datatype Padding = Padding(before: string, after: string)

  ghost predicate AllBlank(pads: seq<Padding>) {
    forall i :: 0 <= i < |pads| ==> Blank(pads[i].before) && Blank(pads[i].after)
  }

  function Print(ranges: seq<ByteRange>, pads: seq<Padding>): seq<string>
    requires |ranges| == |pads|
    requires forall i :: 0 <= i < |ranges| ==> 0 <= ranges[i].start && 0 <= ranges[i].end
  {
    seq(|ranges|, i requires 0 <= i < |ranges| => pads[i].before + Explicit(ranges[i]) + pads[i].after)
  }

  /** A text `a-b` of two trimmed, comma- and dash-free sides, padded, spells what its sides spell. */
  lemma PaddedPartSpells(a: string, b: string, pad: Padding, spec: Spec, fileSize: int64, r: ByteRange)
    requires Trimmed(a) && Trimmed(b) && '-' !in a && '-' !in b
    requires Blank(pad.before) && Blank(pad.after)
    requires Spells(a, b, spec) && Asked(spec, fileSize) == (r.start as int, r.end as int) && InFile(r, fileSize)
    ensures Denotes(pad.before + (a + ['-'] + b) + pad.after, fileSize, r)
  {
    var core := a + ['-'] + b;
    assert core[|core| - 1] == if b == "" then '-' else b[|b| - 1];
    assert core[0] == if a == "" then '-' else a[0];
    TrimPadded(pad.before, core, pad.after);
    assert TrimSpace(pad.before + core + pad.after) == a + ['-'] + b;
  }

  lemma TrimOfTrimmed(s: string)
    requires Trimmed(s)
    ensures TrimSpace(s) == s
  {
  }

  lemma ExplicitDenotes(r: ByteRange, pad: Padding, fileSize: int64)
    requires InFile(r, fileSize) && Blank(pad.before) && Blank(pad.after)
    ensures Denotes(pad.before + Explicit(r) + pad.after, fileSize, r)
    ensures ',' !in pad.before + Explicit(r) + pad.after
  {
    var a, b := Decimal(r.start as nat), Decimal(r.end as nat);
    DecimalIsTrimmed(r.start as nat);
    DecimalIsTrimmed(r.end as nat);
    TrimOfTrimmed(a);
    TrimOfTrimmed(b);
    ParseIntOfDecimal(r.start as nat);
    ParseIntOfDecimal(r.end as nat);
    PaddedPartSpells(a, b, pad, Full(r.start, r.end), fileSize, r);
  }

  /** Printing any non-empty list of ranges of the file, with any white space around the commas, and parsing it back. */
  lemma RoundTrip(ranges: seq<ByteRange>, pads: seq<Padding>, fileSize: int64)
    requires |ranges| == |pads| >= 1 && AllBlank(pads) && 0 <= fileSize
    requires forall i :: 0 <= i < |ranges| ==> 0 <= ranges[i].start <= ranges[i].end < fileSize
    ensures Parse(UNIT + Join(Print(ranges, pads), ','), fileSize) == Ok(ranges)
  {
    var parts := Print(ranges, pads);
    forall i | 0 <= i < |parts| ensures Denotes(parts[i], fileSize, ranges[i]) && ',' !in parts[i] {
      ExplicitDenotes(ranges[i], pads[i], fileSize);
    }
    assert Free(parts, ',') && AllDenote(parts, fileSize, ranges);
    HeaderMeans(UNIT + Join(parts, ','), fileSize, ranges);
  }

  /** A header with a single part. */
  lemma SinglePart(part: string, fileSize: int64)
    requires 0 <= fileSize && ',' !in part
    ensures Parse(UNIT + part, fileSize)
            == if ParsePart(part, fileSize).Ok? then Ok([ParsePart(part, fileSize).value])
               else Err(ParsePart(part, fileSize).error)
  {
    assert (UNIT + part)[|UNIT|..] == part;
    SplitOfPlain(part, ',');
    ParsePartsOfOne(part, fileSize);
  }

  /** Parsing a single dash-separated part whose sides are trimmed. */
  lemma ParseSides(a: string, b: string, fileSize: int64)
    requires 0 <= fileSize && Trimmed(a) && Trimmed(b) && '-' !in a && '-' !in b
    ensures var part := a + ['-'] + b;
            Split(TrimSpace(part), '-') == [a, b] && TrimSpace(a) == a && TrimSpace(b) == b
  {
    var part := a + ['-'] + b;
    assert part[|part| - 1] == if b == "" then '-' else b[|b| - 1];
    assert part[0] == if a == "" then '-' else a[0];
    TrimOfTrimmed(part);
    TrimOfTrimmed(a);
    TrimOfTrimmed(b);
    SidesOf(part, a, b);
  }

  /** "first-" asks for the same as "first-(size-1)", accepted or not. */
  lemma OpenIsExplicit(first: nat, fileSize: int64)
    requires first < INT64_BOUND && 0 < fileSize
    ensures Parse(UNIT + (Decimal(first) + ['-']), fileSize)
            == Parse(UNIT + Explicit(ByteRange(first as int64, fileSize - 1)), fileSize)
  {
    var a, b := Decimal(first), Decimal((fileSize - 1) as nat);
    DecimalIsTrimmed(first);
    DecimalIsTrimmed((fileSize - 1) as nat);
    ParseIntOfDecimal(first);
    ParseIntOfDecimal((fileSize - 1) as nat);
    assert a + ['-'] + "" == a + ['-'];
    ParseSides(a, "", fileSize);
    ParseSides(a, b, fileSize);
    SinglePart(a + ['-'], fileSize);
    SinglePart(a + ['-'] + b, fileSize);
  }

  /** The last `suffix` bytes of a file, or the whole file when it is shorter. */
  function LastBytes(suffix: nat, fileSize: int64): ByteRange
    requires suffix < INT64_BOUND && 0 < fileSize
  {
    ByteRange(if fileSize as int <= suffix then 0 else fileSize - suffix as int64, fileSize - 1)
  }

  /** They end with the file, and are as many as asked for or as there are. */
  lemma LastBytesAreLast(suffix: nat, fileSize: int64)
    requires suffix < INT64_BOUND && 0 < fileSize
    ensures var r := LastBytes(suffix, fileSize);
            r.end == fileSize - 1
            && r.end as int - r.start as int + 1 == if suffix < fileSize as int then suffix else fileSize as int
  {
  }

  /** "-suffix" asks for the last `suffix` bytes, or the whole file when it is shorter; "-0" is rejected. */
  lemma SuffixIsExplicit(suffix: nat, fileSize: int64)
    requires suffix < INT64_BOUND && 0 <= fileSize
    ensures Parse(UNIT + (['-'] + Decimal(suffix)), fileSize)
            == if suffix == 0 || fileSize == 0 then Err(OutOfBounds)
               else Parse(UNIT + Explicit(LastBytes(suffix, fileSize)), fileSize)
  {
    SuffixParses(suffix, fileSize);
    if 0 < suffix && 0 < fileSize {
      SingleExplicit(LastBytes(suffix, fileSize), fileSize);
    }
  }

  lemma SuffixParses(suffix: nat, fileSize: int64)
    requires suffix < INT64_BOUND && 0 <= fileSize
    ensures Parse(UNIT + (['-'] + Decimal(suffix)), fileSize)
            == if suffix == 0 || fileSize == 0 then Err(OutOfBounds) else Ok([LastBytes(suffix, fileSize)])
  {
    var b := Decimal(suffix);
    DecimalIsTrimmed(suffix);
    ParseIntOfDecimal(suffix);
    SinglePart(['-'] + b, fileSize);
    SuffixPartParses(b, suffix as int64, fileSize);
  }

  lemma SuffixPartParses(b: string, suffix: int64, fileSize: int64)
    requires 0 <= fileSize && 0 <= suffix && Trimmed(b) && '-' !in b && ParseInt(b) == Some(suffix)
    ensures ParsePart(['-'] + b, fileSize)
            == if suffix == 0 || fileSize == 0 then Err(OutOfBounds) else Ok(LastBytes(suffix as nat, fileSize))
  {
    assert "" + ['-'] + b == ['-'] + b;
    ParseSides("", b, fileSize);
  }

  lemma SingleExplicit(r: ByteRange, fileSize: int64)
    requires InFile(r, fileSize)
    ensures Parse(UNIT + Explicit(r), fileSize) == Ok([r])
  {
    ExplicitDenotes(r, Padding("", ""), fileSize);
    assert "" + Explicit(r) + "" == Explicit(r);
    PartMeans(Explicit(r), fileSize, r);
    SinglePart(Explicit(r), fileSize);
  }

  predicate OnlySpaces(s: string) {
    forall i :: 0 <= i < |s| ==> s[i] == ' '
  }

  /** "start-end", letter by letter, with spaces around it. */
  function Written(r: ByteRange, pad: Padding): string
    requires 0 <= r.start && 0 <= r.end
  {
    pad.before + (Decimal(r.start as nat) + "-" + Decimal(r.end as nat)) + pad.after
  }

  /** The header as a client writes it, with spaces around the commas. */
  lemma WrittenHeaderParses(ranges: seq<ByteRange>, pads: seq<Padding>, fileSize: int64)
    requires |ranges| == |pads| >= 1 && 0 <= fileSize
    requires forall i :: 0 <= i < |pads| ==> OnlySpaces(pads[i].before) && OnlySpaces(pads[i].after)
    requires forall i :: 0 <= i < |ranges| ==> 0 <= ranges[i].start <= ranges[i].end < fileSize
    ensures var parts := seq(|ranges|, i requires 0 <= i < |ranges| => Written(ranges[i], pads[i]));
            Parse("bytes=" + Join(parts, ','), fileSize) == Ok(ranges)
  {
    RoundTrip(ranges, pads, fileSize);
    assert Print(ranges, pads) == seq(|ranges|, i requires 0 <= i < |ranges| => Written(ranges[i], pads[i]));
  }

  /** Another unit, or none, is refused. */
  lemma OtherUnitIsRefused(header: string, fileSize: int64)
    requires 0 <= fileSize && !("bytes=" <= header)
    ensures Parse(header, fileSize) == Err(BadHeader)
  {
  }
}
