/** The scene file format: parser, printer and the store's touch (crux-memory/l2/scene.go). */
module Scene {
  import opened Wrappers
  import opened Text

  const META_START: string := "-----META-START-----"
  const META_END: string := "-----META-END-----"

  datatype Meta = Meta(created: string, updated: string, summary: string, heat: int)

  datatype Scene = Scene(filename: string, meta: Meta, content: string)

  // ---------------------------------------------------------------- strings

  function TrimLeft(s: string): string {
    if s != "" && IsSpace(s[0]) then TrimLeft(s[1..]) else s
  }

  function TrimRight(s: string): string {
    if s != "" && IsSpace(s[|s| - 1]) then TrimRight(s[..|s| - 1]) else s
  }

  /** `strings.TrimSpace` */
  function Trim(s: string): string {
    TrimRight(TrimLeft(s))
  }

  predicate Trimmed(s: string) {
    s == "" || (!IsSpace(s[0]) && !IsSpace(s[|s| - 1]))
  }

  predicate OccursAt(s: string, pat: string, i: nat) {
    i + |pat| <= |s| && s[i..i + |pat|] == pat
  }

  ghost predicate Occurs(s: string, pat: string) {
    exists i: nat :: OccursAt(s, pat, i)
  }

  /** `strings.Index`, from a position on. */
  function IndexFrom(s: string, pat: string, from: nat): (r: Option<nat>)
    requires from <= |s|
    ensures r.Some? ==> from <= r.value && OccursAt(s, pat, r.value)
    ensures r.Some? ==> forall i | from <= i < r.value :: !OccursAt(s, pat, i)
    ensures r.None? ==> forall i: nat | from <= i :: !OccursAt(s, pat, i)
    decreases |s| - from
  {
    if OccursAt(s, pat, from) then Some(from)
    else if from == |s| then None
    else IndexFrom(s, pat, from + 1)
  }

  function Index(s: string, pat: string): (r: Option<nat>)
    ensures r.Some? ==> OccursAt(s, pat, r.value) && forall i | 0 <= i < r.value :: !OccursAt(s, pat, i)
    ensures r.None? <==> !Occurs(s, pat)
  {
    IndexFrom(s, pat, 0)
  }

  /** `strings.Split(s, "\n")` */
  function Lines(s: string): (r: seq<string>)
    ensures |r| > 0
  {
    if s == "" then [""]
    else if s[0] == '\n' then [""] + Lines(s[1..])
    else
      var rest := Lines(s[1..]);
      [[s[0]] + rest[0]] + rest[1..]
  }

  // ---------------------------------------------------------------- numbers

  const MAX_UINT64: int := 0xFFFF_FFFF_FFFF_FFFF
  const MAX_INT64: int := 0x7FFF_FFFF_FFFF_FFFF
  const MIN_INT64: int := -0x8000_0000_0000_0000

  predicate IsInt64(n: int) {
    MIN_INT64 <= n <= MAX_INT64
  }

  /** `strconv.Itoa` */
  function Itoa(n: int): string {
    if n < 0 then "-" + Digits(-n) else Digits(n)
  }

  datatype Scan = Value(n: nat) | Overflow | Bad

  /** Reads digits from the left; the first overflow or bad character decides. */
  function ScanDigits(s: string): Scan {
    if s == "" then Value(0)
    else
      var c := s[|s| - 1];
      match ScanDigits(s[..|s| - 1])
      case Overflow => Overflow
      case Bad => Bad
      case Value(n) =>
        if !IsDigit(c) then Bad
        else if 10 * n + DigitValue(c) > MAX_UINT64 then Overflow
        else Value(10 * n + DigitValue(c))
  }

  /** The number `strconv.Atoi` returns, whatever error comes with it. */
  function Atoi(s: string): (n: int)
    ensures IsInt64(n)
  {
    var signed := s != "" && (s[0] == '-' || s[0] == '+');
    var digits := if signed then s[1..] else s;
    var negative := signed && s[0] == '-';
    if digits == "" then 0
    else
      match ScanDigits(digits)
      case Bad => 0
      case Overflow => if negative then MIN_INT64 else MAX_INT64
      case Value(n) =>
        if negative then (if n > -MIN_INT64 then MIN_INT64 else -(n as int))
        else (if n > MAX_INT64 then MAX_INT64 else n)
  }

  // ---------------------------------------------------------------- parser and printer

  function FieldOf(lines: seq<string>, key: string): string {
    if lines == [] then ""
    else
      var line := Trim(lines[0]);
      if key + ":" <= line then Trim(line[|key| + 1..]) else FieldOf(lines[1..], key)
  }

  function ExtractField(block: string, key: string): string {
    FieldOf(Lines(block), key)
  }

  function ParseInt(s: string): int {
    Atoi(Trim(s))
  }

  /** `None` where the markers overlap: there the program slices out of range. */
  function Parse(raw: string, filename: string): Option<Scene> {
    var start := Index(raw, META_START);
    var end := Index(raw, META_END);
    if start.None? || end.None? || end.value < start.value then
      Some(Scene(filename, Meta("", "", "", 0), Trim(raw)))
    else if start.value + |META_START| > end.value then None
    else
      var block := Trim(raw[start.value + |META_START|..end.value]);
      Some(Scene(filename,
                 Meta(ExtractField(block, "created"), ExtractField(block, "updated"),
                      ExtractField(block, "summary"), ParseInt(ExtractField(block, "heat"))),
                 Trim(raw[end.value + |META_END|..])))
  }

  function Format(s: Scene): string {
    META_START + "\n\n" + FieldLines(s.meta) + "\n\n" + META_END + "\n\n" + s.content
  }

  function FieldLines(m: Meta): string {
    "created: " + m.created + "\n" + "updated: " + m.updated + "\n" + "summary: " + m.summary + "\n"
    + "heat: " + Itoa(m.heat)
  }

  // ---------------------------------------------------------------- what survives

  predicate NewlineFree(s: string) {
    forall k | 0 <= k < |s| :: s[k] != '\n'
  }

  ghost predicate CleanField(s: string) {
    Trimmed(s) && NewlineFree(s) && !Occurs(s, META_END)
  }

  /** The scenes that the format can hold. */
  ghost predicate Clean(s: Scene) {
    && CleanField(s.meta.created) && CleanField(s.meta.updated) && CleanField(s.meta.summary)
    && IsInt64(s.meta.heat) && Trimmed(s.content)
  }

  // ---------------------------------------------------------------- trimming

  predicate Within(a: string, b: string, i: nat) {
    i + |a| <= |b| && a == b[i..i + |a|]
  }

  lemma {:induction false} TrimLeftWithin(s: string) returns (i: nat)
    ensures i <= |s| && TrimLeft(s) == s[i..] && IsBlank(s[..i])
    ensures TrimLeft(s) == "" || !IsSpace(TrimLeft(s)[0])
  {
    if s != "" && IsSpace(s[0]) {
      i := TrimLeftWithin(s[1..]);
      i := i + 1;
    } else {
      i := 0;
    }
  }

  lemma {:induction false} TrimRightWithin(s: string) returns (j: nat)
    ensures j <= |s| && TrimRight(s) == s[..j] && IsBlank(s[j..])
    ensures j == 0 || !IsSpace(s[j - 1])
  {
    if s != "" && IsSpace(s[|s| - 1]) {
      j := TrimRightWithin(s[..|s| - 1]);
      assert s[j..] == s[..|s| - 1][j..] + [s[|s| - 1]];
    } else {
      j := |s|;
    }
  }

  /** Trimming cuts off blanks only, and leaves no space at either end. */
  lemma TrimWithin(s: string) returns (i: nat)
    ensures Trimmed(Trim(s)) && Within(Trim(s), s, i)
    ensures IsBlank(s[..i]) && IsBlank(s[i + |Trim(s)|..])
  {
    hide IsSpace;
    i := TrimLeftWithin(s);
    var j := TrimRightWithin(TrimLeft(s));
  }

  lemma {:induction false} TrimLeftSkips(a: string, s: string)
    requires IsBlank(a) && (s == "" || !IsSpace(s[0]))
    ensures TrimLeft(a + s) == s
  {
    if a == "" {
      assert a + s == s;
    } else {
      assert (a + s)[1..] == a[1..] + s;
      TrimLeftSkips(a[1..], s);
    }
  }

  lemma {:induction false} TrimRightSkips(s: string, b: string)
    requires IsBlank(b) && (s == "" || !IsSpace(s[|s| - 1]))
    ensures TrimRight(s + b) == s
  {
    if b == "" {
      assert s + b == s;
    } else {
      assert (s + b)[..|s + b| - 1] == s + b[..|b| - 1];
      TrimRightSkips(s, b[..|b| - 1]);
    }
  }

  /** Blanks around a trimmed text disappear. */
  lemma TrimBetween(a: string, s: string, b: string)
    requires IsBlank(a) && Trimmed(s) && IsBlank(b)
    ensures Trim(a + s + b) == s
  {
    if s == "" {
      assert a + s + b == (a + b) + "";
      TrimLeftSkips(a + b, "");
    } else {
      assert a + s + b == a + (s + b);
      TrimLeftSkips(a, s + b);
      TrimRightSkips(s, b);
    }
  }

  // ---------------------------------------------------------------- numbers

  lemma {:induction false} ScanReadsDigits(n: nat)
    requires n <= MAX_UINT64
    ensures ScanDigits(Digits(n)) == Value(n)
  {
    var s := Digits(n);
    if n < 10 {
      assert s[..|s| - 1] == "";
    } else {
      assert s[..|s| - 1] == Digits(n / 10);
      ScanReadsDigits(n / 10);
    }
  }

  lemma {:induction false} DigitsAreDigits(n: nat)
    ensures Digits(n) != "" && forall k | 0 <= k < |Digits(n)| :: IsDigit(Digits(n)[k])
  {
    if n >= 10 {
      DigitsAreDigits(n / 10);
    }
  }

  /** The printed number reads back. */
  lemma AtoiReadsItoa(n: int)
    requires IsInt64(n)
    ensures Atoi(Itoa(n)) == n
  {
    var m := if n < 0 then -n else n;
    DigitsAreDigits(m);
    ScanReadsDigits(m);
    assert n < 0 ==> Itoa(n)[1..] == Digits(m);
  }

  predicate AllDigits(s: string) {
    forall k | 0 <= k < |s| :: IsDigit(s[k])
  }

  /** The value of a digit string, without bounds. */
  function Number(s: string): nat
    requires AllDigits(s)
  {
    if s == "" then 0 else 10 * Number(s[..|s| - 1]) + DigitValue(s[|s| - 1])
  }

  /** Some digits at the start of `s` make a number beyond 64 bits. */
  ghost predicate Overflows(s: string) {
    exists k :: OverflowsAt(s, k)
  }

  predicate OverflowsAt(s: string, k: nat) {
    k <= |s| && AllDigits(s[..k]) && Number(s[..k]) > MAX_UINT64
  }

  lemma {:induction false} ScanIs(s: string)
    ensures ScanDigits(s).Overflow? <==> Overflows(s)
    ensures ScanDigits(s).Value? <==> AllDigits(s) && !Overflows(s)
    ensures ScanDigits(s).Value? ==> ScanDigits(s).n == Number(s)
  {
    if s == "" {
      NothingReads();
    } else {
      var front, c := s[..|s| - 1], s[|s| - 1];
      ScanIs(front);
      assert AllDigits(s) <==> AllDigits(front) && IsDigit(c);
      OverflowsNext(s);
    }
  }

  lemma OverflowsNext(s: string)
    requires s != ""
    ensures Overflows(s) <==> Overflows(s[..|s| - 1]) || (AllDigits(s) && Number(s) > MAX_UINT64)
  {
    hide AllDigits, Number;
    var front := s[..|s| - 1];
    assert s[..|s|] == s;
    forall k: nat | k <= |front|
      ensures OverflowsAt(s, k) <==> OverflowsAt(front, k)
    {
      assert s[..k] == front[..k];
    }
    assert forall k: nat :: OverflowsAt(s, k) ==> k <= |front| || k == |s|;
    assert OverflowsAt(s, |s|) <==> AllDigits(s) && Number(s) > MAX_UINT64;
  }

  function Clamped(n: int): int {
    if n < MIN_INT64 then MIN_INT64 else if n > MAX_INT64 then MAX_INT64 else n
  }

  /** Reading a number: an optional sign and digits give the value, as far as 64 bits hold it; once the digits
      exceed them nothing after them matters; everything else reads as 0. */
  lemma AtoiIs(s: string)
    ensures var signed := s != "" && s[0] in {'-', '+'};
            var negative, digits := signed && s[0] == '-', if signed then s[1..] else s;
            Atoi(s) == if Overflows(digits) then (if negative then MIN_INT64 else MAX_INT64)
                       else if AllDigits(digits) then Clamped(if negative then 0 - Number(digits) else Number(digits))
                       else 0
  {
    ScanIs(if s != "" && s[0] in {'-', '+'} then s[1..] else s);
    hide AllDigits, Overflows, ScanDigits;
    NothingReads();
  }

  lemma NothingReads()
    ensures AllDigits("") && Number("") == 0 && !Overflows("")
  {
  }

  lemma ItoaIsClean(n: int)
    ensures Itoa(n) != "" && Trimmed(Itoa(n)) && NewlineFree(Itoa(n))
    ensures forall k | 0 <= k < |Itoa(n)| :: IsDigit(Itoa(n)[k]) || Itoa(n)[k] == '-'
  {
    DigitsAreDigits(if n < 0 then -n else n);
  }

  // ---------------------------------------------------------------- searching

  lemma CharAt(s: string, pat: string, i: nat, k: nat)
    requires OccursAt(s, pat, i) && k < |pat|
    ensures i + k < |s| && s[i + k] == pat[k]
  {
    assert s[i..i + |pat|][k] == s[i + k];
  }

  lemma OccurrenceMoves(a: string, b: string, i: nat, pat: string, k: nat)
    requires Within(a, b, i) && OccursAt(a, pat, k)
    ensures OccursAt(b, pat, i + k)
  {
    forall q | 0 <= q < |pat|
      ensures b[i + k + q] == pat[q]
    {
      CharAt(a, pat, k, q);
      assert b[i..i + |a|][k + q] == b[i + (k + q)];
    }
  }

  lemma OccursWithin(a: string, b: string, i: nat, pat: string)
    requires Within(a, b, i) && Occurs(a, pat)
    ensures Occurs(b, pat)
  {
    var k: nat :| OccursAt(a, pat, k);
    OccurrenceMoves(a, b, i, pat, k);
  }

  lemma NewlineFreeWithin(a: string, b: string, i: nat)
    requires Within(a, b, i) && NewlineFree(b)
    ensures NewlineFree(a)
  {
    assert forall k | 0 <= k < |a| :: a[k] == b[i + k];
  }

  lemma NotAcross(s: string, pat: string, i: nat, n: nat)
    requires OccursAt(s, pat, i) && NewlineFree(pat) && n < |s| && s[n] == '\n'
    ensures n < i || n >= i + |pat|
  {
    hide OccursAt;
    if i <= n < i + |pat| {
      CharAt(s, pat, i, n - i);
    }
  }

  /** A marker without line breaks cannot reach across one. */
  lemma OccursInOneLine(a: string, b: string, pat: string, i: nat)
    requires pat != "" && NewlineFree(pat) && OccursAt(a + "\n" + b, pat, i)
    ensures OccursAt(a, pat, i) || (i > |a| && OccursAt(b, pat, i - |a| - 1))
  {
    var s := a + "\n" + b;
    NotAcross(s, pat, i, |a|);
    if i + |pat| <= |a| {
      assert s[i..i + |pat|] == a[i..i + |pat|];
    } else {
      assert s[i..i + |pat|] == b[i - |a| - 1..i - |a| - 1 + |pat|];
    }
  }

  /** A line without the marker moves its first occurrence back by its length. */
  lemma IndexAfterLine(a: string, b: string, pat: string)
    requires pat != "" && NewlineFree(pat) && !Occurs(a, pat) && Index(b, pat).Some?
    ensures Index(a + "\n" + b, pat) == Some(|a| + 1 + Index(b, pat).value)
  {
    var s, j := a + "\n" + b, Index(b, pat).value;
    assert s[|a| + 1 + j..|a| + 1 + j + |pat|] == b[j..j + |pat|];
    assert OccursAt(s, pat, |a| + 1 + j);
    forall i: nat | i < |a| + 1 + j
      ensures !OccursAt(s, pat, i)
    {
      if OccursAt(s, pat, i) {
        OccursInOneLine(a, b, pat, i);
      }
    }
  }

  lemma IndexAtStart(pat: string, b: string)
    ensures Index(pat + b, pat) == Some(0)
  {
    assert OccursAt(pat + b, pat, 0);
  }

  /** A prefix without the marker's first character in it hides no marker. */
  lemma LabelledField(prefix: string, v: string)
    requires !Occurs(v, META_END) && forall k | 0 <= k < |prefix| :: prefix[k] != '-'
    ensures !Occurs(prefix + v, META_END)
  {
    if i: nat :| OccursAt(prefix + v, META_END, i) {
      assert (prefix + v)[i..i + |META_END|][0] == '-';
      assert i >= |prefix|;
      assert v[i - |prefix|..i - |prefix| + |META_END|] == (prefix + v)[i..i + |META_END|];
      assert OccursAt(v, META_END, i - |prefix|);
    }
  }

  lemma NoMarkerInNumber(n: int)
    ensures !Occurs(Itoa(n), META_END)
  {
    ItoaIsClean(n);
    hide OccursAt, Itoa;
    assert META_END[5] == 'M';
    if i: nat :| OccursAt(Itoa(n), META_END, i) {
      CharAt(Itoa(n), META_END, i, 5);
    }
  }

  lemma NoEndInStart()
    ensures !Occurs(META_START, META_END)
  {
    forall i: nat
      ensures !OccursAt(META_START, META_END, i)
    {
      if i <= 2 {
        assert META_END[10] == 'E' && META_START[i + 10] != 'E';
      }
    }
  }

  // ---------------------------------------------------------------- lines

  lemma {:induction false} LineWithin(s: string, k: nat) returns (i: nat)
    requires k < |Lines(s)|
    ensures Within(Lines(s)[k], s, i) && NewlineFree(Lines(s)[k])
    ensures k == 0 ==> i == 0
  {
    if s == "" {
      i := 0;
    } else if s[0] == '\n' {
      if k == 0 {
        i := 0;
      } else {
        i := LineWithin(s[1..], k - 1);
        i := i + 1;
      }
    } else {
      i := LineWithin(s[1..], k);
      if k > 0 {
        i := i + 1;
      }
    }
  }

  lemma {:induction false} OneLine(a: string)
    requires NewlineFree(a)
    ensures Lines(a) == [a]
  {
    if a != "" {
      assert [a[0]] + a[1..] == a;
      OneLine(a[1..]);
    }
  }

  lemma {:induction false} LinesCons(a: string, b: string)
    requires NewlineFree(a)
    ensures Lines(a + "\n" + b) == [a] + Lines(b)
  {
    if a == "" {
      assert (a + "\n" + b)[1..] == b;
    } else {
      assert (a + "\n" + b)[1..] == a[1..] + "\n" + b;
      assert [a[0]] + a[1..] == a && ([a[1..]] + Lines(b))[1..] == Lines(b);
      LinesCons(a[1..], b);
    }
  }

  // ---------------------------------------------------------------- what the parser yields is clean

  lemma {:induction false} FieldIsClean(lines: seq<string>, key: string)
    requires forall k | 0 <= k < |lines| :: NewlineFree(lines[k]) && !Occurs(lines[k], META_END)
    ensures CleanField(FieldOf(lines, key))
  {
    hide CleanField, IsSpace;
    if lines == [] {
      EmptyIsClean();
    } else {
      var line := Trim(lines[0]);
      if key + ":" <= line {
        PartIsClean(lines[0], |key| + 1);
      } else {
        FieldIsClean(lines[1..], key);
      }
    }
  }

  lemma EmptyIsClean()
    ensures CleanField("")
  {
  }

  lemma PartIsClean(line: string, n: nat)
    requires NewlineFree(line) && !Occurs(line, META_END) && n <= |Trim(line)|
    ensures CleanField(Trim(Trim(line)[n..]))
  {
    hide IsSpace, Trim, Occurs, NewlineFree;
    var i := TrimWithin(line);
    var rest := Trim(line)[n..];
    var j := TrimWithin(rest);
    assert Within(rest, Trim(line), n);
    NewlineFreeWithin(Trim(line), line, i);
    NewlineFreeWithin(rest, Trim(line), n);
    NewlineFreeWithin(Trim(rest), rest, j);
    if Occurs(Trim(rest), META_END) {
      OccursWithin(Trim(rest), rest, j, META_END);
      OccursWithin(rest, Trim(line), n, META_END);
      OccursWithin(Trim(line), line, i, META_END);
    }
  }

  lemma BlockFieldIsClean(block: string, key: string)
    requires !Occurs(block, META_END)
    ensures CleanField(ExtractField(block, key))
  {
    hide Occurs, CleanField;
    forall k | 0 <= k < |Lines(block)|
      ensures NewlineFree(Lines(block)[k]) && !Occurs(Lines(block)[k], META_END)
    {
      var i := LineWithin(block, k);
      if Occurs(Lines(block)[k], META_END) {
        OccursWithin(Lines(block)[k], block, i, META_END);
      }
    }
    FieldIsClean(Lines(block), key);
  }

  lemma NoneBetween(raw: string, from: nat, end: nat)
    requires from <= end <= |raw| && forall i | 0 <= i < end :: !OccursAt(raw, META_END, i)
    ensures !Occurs(raw[from..end], META_END)
  {
    if k: nat :| OccursAt(raw[from..end], META_END, k) {
      OccurrenceMoves(raw[from..end], raw, from, META_END, k);
    }
  }

  /** Whatever the parser returns can be written and read back. */
  lemma ParsedIsClean(raw: string, filename: string)
    requires Parse(raw, filename).Some?
    ensures Clean(Parse(raw, filename).value)
  {
    hide IsSpace, CleanField, Trim, ExtractField;
    EmptyIsClean();
    var start, end := Index(raw, META_START), Index(raw, META_END);
    if start.None? || end.None? || end.value < start.value {
      var _ := TrimWithin(raw);
    } else {
      var between := raw[start.value + |META_START|..end.value];
      var block := Trim(between);
      var i := TrimWithin(between);
      NoneBetween(raw, start.value + |META_START|, end.value);
      if Occurs(block, META_END) {
        OccursWithin(block, between, i, META_END);
      }
      BlockFieldIsClean(block, "created");
      BlockFieldIsClean(block, "updated");
      BlockFieldIsClean(block, "summary");
      var _ := TrimWithin(raw[end.value + |META_END|..]);
    }
  }

  // ---------------------------------------------------------------- what the printer writes reads back

  /** A printed field, trimmed, is its key and its value. */
  /** A field is what follows its key in the first line that starts with it, without outer blanks. */
  lemma {:induction false} FieldIsFirst(lines: seq<string>, key: string) returns (k: nat)
    ensures k <= |lines| && forall j | 0 <= j < k :: !(key + ":" <= Trim(lines[j]))
    ensures if k == |lines| then FieldOf(lines, key) == ""
            else key + ":" <= Trim(lines[k]) && FieldOf(lines, key) == Trim(Trim(lines[k])[|key| + 1..])
  {
    hide Trim;
    k := 0;
    if lines != [] && !(key + ":" <= Trim(lines[0])) {
      k := FieldIsFirst(lines[1..], key);
      assert forall j | 0 < j < k + 1 :: lines[j] == lines[1..][j - 1];
      k := k + 1;
    }
  }

  /** The first markers of a text stand at `a` and `b`, in this order. */
  ghost predicate MarkersAt(raw: string, a: nat, b: nat) {
    && OccursAt(raw, META_START, a) && (forall i | 0 <= i < a :: !OccursAt(raw, META_START, i))
    && OccursAt(raw, META_END, b) && (forall i | 0 <= i < b :: !OccursAt(raw, META_END, i))
    && a <= b
  }

  predicate BlankBetween(s: string, from: nat, to: nat) {
    from <= to <= |s| && IsBlank(s[from..to])
  }

  /** The content is all the text, or all the text behind the end marker, but for outer blanks; a text without
      markers, or with the end marker first, has no fields. */
  lemma ContentIsText(raw: string, filename: string) returns (i: nat)
    requires Parse(raw, filename).Some?
    ensures var scene := Parse(raw, filename).value;
            && scene.filename == filename && Trimmed(scene.content) && Within(scene.content, raw, i)
            && BlankBetween(raw, i + |scene.content|, |raw|)
            && (forall a: nat, b: nat | MarkersAt(raw, a, b) :: BlankBetween(raw, b + |META_END|, i))
            && ((forall a: nat, b: nat :: !MarkersAt(raw, a, b)) ==>
                  BlankBetween(raw, 0, i) && scene.meta == Meta("", "", "", 0))
  {
    hide Trim, Parse, MarkersAt, Within, BlankBetween, Trimmed;
    var from := ParsedFrom(raw, filename);
    i := TrimmedRest(raw, from);
  }

  /** Where the content is read from. */
  lemma ParsedFrom(raw: string, filename: string) returns (from: nat)
    requires Parse(raw, filename).Some?
    ensures var scene := Parse(raw, filename).value;
            && scene.filename == filename && from <= |raw| && scene.content == Trim(raw[from..])
            && (forall a: nat, b: nat | MarkersAt(raw, a, b) :: from == b + |META_END|)
            && ((forall a: nat, b: nat :: !MarkersAt(raw, a, b)) ==> from == 0 && scene.meta == Meta("", "", "", 0))
  {
    hide Trim, ExtractField, ParseInt;
    var start, end := Index(raw, META_START), Index(raw, META_END);
    if start.Some? && end.Some? && start.value <= end.value {
      from := end.value + |META_END|;
      assert MarkersAt(raw, start.value, end.value);
      OnlyMarkers(raw, start.value, end.value);
    } else {
      from := 0;
      assert raw[0..] == raw;
      NoMarkersAt(raw);
    }
    hide MarkersAt, OccursAt;
  }

  lemma TrimmedRest(raw: string, from: nat) returns (i: nat)
    requires from <= |raw|
    ensures var content := Trim(raw[from..]);
            Trimmed(content) && Within(content, raw, i)
              && BlankBetween(raw, from, i) && BlankBetween(raw, i + |content|, |raw|)
  {
    hide IsSpace, Trim, Trimmed;
    var n := TrimWithin(raw[from..]);
    i := from + n;
    var content := Trim(raw[from..]);
    assert raw[from..][..n] == raw[from..i] && raw[from..][n + |content|..] == raw[i + |content|..];
  }

  lemma OnlyMarkers(raw: string, a: nat, b: nat)
    requires MarkersAt(raw, a, b)
    ensures forall a': nat, b': nat | MarkersAt(raw, a', b') :: a' == a && b' == b
  {
  }

  lemma NoMarkersAt(raw: string)
    requires var start, end := Index(raw, META_START), Index(raw, META_END);
             start.None? || end.None? || end.value < start.value
    ensures forall a: nat, b: nat :: !MarkersAt(raw, a, b)
  {
  }

  lemma FieldLine(key: string, v: string)
    requires key != "" && !IsSpace(key[0]) && Trimmed(v)
    ensures key + ":" <= Trim(key + ": " + v) && Trim(Trim(key + ": " + v)[|key| + 1..]) == v
    ensures Trim(key + ": " + v)[0] == key[0]
  {
    if v == "" {
      assert key + ": " + v == "" + (key + ":") + " ";
      TrimBetween("", key + ":", " ");
      TrimBetween("", "", "");
      assert (key + ":")[|key| + 1..] == "";
    } else {
      var line := key + ": " + v;
      assert line == "" + line + "";
      TrimBetween("", line, "");
      assert line[|key| + 1..] == " " + v + "";
      TrimBetween(" ", v, "");
    }
  }

  /** Looking for a key skips lines that start with another letter. */
  lemma SkipLine(line: string, rest: seq<string>, key: string)
    requires key != "" && Trim(line) != "" && Trim(line)[0] != key[0]
    ensures FieldOf([line] + rest, key) == FieldOf(rest, key)
  {
    assert (key + ":")[0] == key[0];
    assert ([line] + rest)[1..] == rest;
  }

  lemma HitLine(line: string, rest: seq<string>, key: string)
    requires key + ":" <= Trim(line)
    ensures FieldOf([line] + rest, key) == Trim(Trim(line)[|key| + 1..])
  {
  }

  lemma FieldsReadBack(m: Meta)
    requires CleanField(m.created) && CleanField(m.updated) && CleanField(m.summary) && IsInt64(m.heat)
    ensures ExtractField(FieldLines(m), "created") == m.created
    ensures ExtractField(FieldLines(m), "updated") == m.updated
    ensures ExtractField(FieldLines(m), "summary") == m.summary
    ensures ParseInt(ExtractField(FieldLines(m), "heat")) == m.heat
  {
    hide Trim, IsSpace, Atoi, Itoa, Occurs, FieldOf, FieldLines;
    var c, u := "created: " + m.created, "updated: " + m.updated;
    var s, h := "summary: " + m.summary, "heat: " + Itoa(m.heat);
    LinesOfFields(m, c, u, s, h);
    NotSpaces();
    assert "created" + ": " + m.created == c && "updated" + ": " + m.updated == u && "summary" + ": " + m.summary == s;
    assert "heat" + ": " + Itoa(m.heat) == h;
    FieldLine("created", m.created);
    FieldLine("updated", m.updated);
    FieldLine("summary", m.summary);
    ItoaIsClean(m.heat);
    FieldLine("heat", Itoa(m.heat));
    AtoiReadsItoa(m.heat);
    var t := Itoa(m.heat);
    assert t == "" + t + "";
    TrimBetween("", t, "");
    HitLine(c, [u, s, h], "created");
    HitLine(u, [s, h], "updated");
    HitLine(s, [h], "summary");
    HitLine(h, [], "heat");
    SkipLine(c, [u, s, h], "updated");
    SkipLine(c, [u, s, h], "summary");
    SkipLine(u, [s, h], "summary");
    SkipLine(c, [u, s, h], "heat");
    SkipLine(u, [s, h], "heat");
    SkipLine(s, [h], "heat");
    assert [c, u, s, h] == [c] + [u, s, h] && [u, s, h] == [u] + [s, h] && [s, h] == [s] + [h] && [h] == [h] + [];
  }

  lemma NotSpaces()
    ensures !IsSpace('c') && !IsSpace('u') && !IsSpace('s') && !IsSpace('h') && !IsSpace(':') && IsSpace(' ')
              && IsSpace('\n')
  {
  }

  lemma LinesOfFields(m: Meta, c: string, u: string, s: string, h: string)
    requires NewlineFree(m.created) && NewlineFree(m.updated) && NewlineFree(m.summary)
    requires c == "created: " + m.created && u == "updated: " + m.updated && s == "summary: " + m.summary
    requires h == "heat: " + Itoa(m.heat)
    ensures Lines(FieldLines(m)) == [c, u, s, h]
  {
    hide Lines, Itoa;
    ItoaIsClean(m.heat);
    assert FieldLines(m) == c + "\n" + (u + "\n" + (s + "\n" + h));
    LinesCons(c, u + "\n" + (s + "\n" + h));
    LinesCons(u, s + "\n" + h);
    LinesCons(s, h);
    OneLine(h);
  }

  /** The end marker of a printed scene is where the printer put it. */
  lemma EndMarkerFound(s: Scene)
    requires Clean(s)
    ensures var head := META_START + "\n\n" + FieldLines(s.meta) + "\n\n";
            Index(Format(s), META_END) == Some(|head|)
  {
    hide Occurs, Trimmed, IsSpace, Itoa, Index, FieldLines;
    var tail := META_END + ("\n\n" + s.content);
    var c, u := "created: " + s.meta.created, "updated: " + s.meta.updated;
    var f, h := "summary: " + s.meta.summary, "heat: " + Itoa(s.meta.heat);
    NoMarkers(s.meta);
    NoEndInStart();
    IndexAtStart(META_END, "\n\n" + s.content);
    var r1 := "" + "\n" + tail;
    var r2 := h + "\n" + r1;
    var r3 := f + "\n" + r2;
    var r4 := u + "\n" + r3;
    var r5 := c + "\n" + r4;
    var r6 := "" + "\n" + r5;
    var r7 := META_START + "\n" + r6;
    IndexAfterLine("", tail, META_END);
    IndexAfterLine(h, r1, META_END);
    IndexAfterLine(f, r2, META_END);
    IndexAfterLine(u, r3, META_END);
    IndexAfterLine(c, r4, META_END);
    IndexAfterLine("", r5, META_END);
    IndexAfterLine(META_START, r6, META_END);
    FormatInLines(s, c, u, f, h);
  }

  lemma NoMarkers(m: Meta)
    requires !Occurs(m.created, META_END) && !Occurs(m.updated, META_END) && !Occurs(m.summary, META_END)
    ensures !Occurs("created: " + m.created, META_END) && !Occurs("updated: " + m.updated, META_END)
    ensures !Occurs("summary: " + m.summary, META_END) && !Occurs("heat: " + Itoa(m.heat), META_END)
              && !Occurs("", META_END)
  {
    LabelledField("created: ", m.created);
    LabelledField("updated: ", m.updated);
    LabelledField("summary: ", m.summary);
    NoMarkerInNumber(m.heat);
    LabelledField("heat: ", Itoa(m.heat));
  }

  lemma FormatInLines(s: Scene, c: string, u: string, f: string, h: string)
    requires c == "created: " + s.meta.created && u == "updated: " + s.meta.updated && f == "summary: " + s.meta.summary
    requires h == "heat: " + Itoa(s.meta.heat)
    ensures FieldLines(s.meta) == c + "\n" + u + "\n" + f + "\n" + h
    ensures Format(s) == META_START + "\n" + ("" + "\n" + (c + "\n" + (u + "\n" + (f + "\n" + (h + "\n" + ("" + "\n"
                         + (META_END + ("\n\n" + s.content))))))))
  {
    hide Itoa;
    Regroup(META_START, c, u, f, h, META_END, s.content);
  }

  lemma Regroup(a: string, c: string, u: string, f: string, h: string, e: string, t: string)
    ensures a + "\n\n" + (c + "\n" + u + "\n" + f + "\n" + h) + "\n\n" + e + "\n\n" + t
         == a + "\n" + ("" + "\n" + (c + "\n"
             + (u + "\n" + (f + "\n" + (h + "\n" + ("" + "\n" + (e + ("\n\n" + t))))))))
  {
    assert "\n\n" == "\n" + "\n";
  }

  /** Printing and parsing gives the scene back exactly when it is clean. */
  lemma RoundTrip(s: Scene)
    ensures Parse(Format(s), s.filename) == Some(s) <==> Clean(s)
  {
    hide IsSpace, CleanField, Trim, ExtractField, FieldLines;
    if Parse(Format(s), s.filename) == Some(s) {
      ParsedIsClean(Format(s), s.filename);
    }
    if Clean(s) {
      CleanReadsBack(s);
    }
  }

  lemma CleanReadsBack(s: Scene)
    requires Clean(s)
    ensures Parse(Format(s), s.filename) == Some(s)
  {
    hide IsSpace, Trim, ExtractField, FieldLines, Index, Occurs;
    var raw := Format(s);
    var fields := FieldLines(s.meta);
    var head := META_START + "\n\n" + fields + "\n\n";
    Slices(META_START, fields, META_END, s.content);
    IndexAtStart(META_START, "\n\n" + fields + "\n\n" + META_END + "\n\n" + s.content);
    EndMarkerFound(s);
    NotSpaces();
    FieldLinesTrimmed(s.meta);
    TrimBetween("\n\n", fields, "\n\n");
    FieldsReadBack(s.meta);
    TrimBetween("\n\n", s.content, "");
  }

  lemma Slices(a: string, fields: string, e: string, content: string)
    ensures var raw := a + "\n\n" + fields + "\n\n" + e + "\n\n" + content;
            var head := a + "\n\n" + fields + "\n\n";
            && raw == a + ("\n\n" + fields + "\n\n" + e + "\n\n" + content)
            && raw[|a|..|head|] == "\n\n" + fields + "\n\n"
            && raw[|head| + |e|..] == "\n\n" + content + ""
  {
  }

  lemma FieldLinesTrimmed(m: Meta)
    ensures Trimmed(FieldLines(m))
  {
    ItoaIsClean(m.heat);
    hide Itoa;
    var f := FieldLines(m);
    assert f[0] == 'c' && f[|f| - 1] == Itoa(m.heat)[|Itoa(m.heat)| - 1];
  }

  /** Printing what was parsed and parsing it again changes nothing. */
  lemma ParseIsStable(raw: string, filename: string)
    requires Parse(raw, filename).Some?
    ensures Parse(Format(Parse(raw, filename).value), filename) == Parse(raw, filename)
  {
    hide Format, Clean;
    ParsedIsClean(raw, filename);
    CleanReadsBack(Parse(raw, filename).value);
  }

  // ---------------------------------------------------------------- the store

  datatype StoreError = NotFound | Malformed | EmptyFilename

  /** A counter that wraps like the program's 64-bit integer. */
  function Increment(heat: int): int {
    if heat == MAX_INT64 then MIN_INT64 else heat + 1
  }

  /** The scene directory: file contents by file name. */
  class Store {
    var files: map<string, string>

    constructor ()
      ensures files == map[]
    {
      files := map[];
    }

    /** `Malformed` where the parser would slice out of range. */
    method Read(name: string) returns (r: Result<Scene, StoreError>)
      ensures name + ".md" !in files <==> r == Err(NotFound)
      ensures name + ".md" in files ==>
                r == match Parse(files[name + ".md"], name + ".md")
                     case Some(s) => Ok(s)
                     case None => Err(Malformed)
    {
      if name + ".md" !in files {
        return Err(NotFound);
      }
      match Parse(files[name + ".md"], name + ".md")
      case Some(s) => r := Ok(s);
      case None => r := Err(Malformed);
    }

    /** A missing date is filled in; the scene goes to the file it names. */
    method Write(scene: Scene, now: string) returns (r: Result<Scene, StoreError>)
      modifies this
      ensures scene.filename == "" ==> r == Err(EmptyFilename) && files == old(files)
      ensures scene.filename != "" ==>
                r == Ok(Dated(scene, now)) && files == old(files)[scene.filename := Format(Dated(scene, now))]
    {
      if scene.filename == "" {
        return Err(EmptyFilename);
      }
      var meta := scene.meta;
      if meta.updated == "" {
        meta := meta.(updated := now);
      }
      if meta.created == "" {
        meta := meta.(created := meta.updated);
      }
      var dated := Scene(scene.filename, meta, scene.content);
      files := files[scene.filename := Format(dated)];
      r := Ok(dated);
    }

    /** Reading a touched scene shows one more heat, the new date and nothing else changed. */
    method Touch(name: string, now: string) returns (r: Result<Scene, StoreError>)
      requires CleanField(now) && now != ""
      modifies this
      ensures r.Err? ==> files == old(files)
      ensures r.Err? <==> name + ".md" !in old(files) || Parse(old(files)[name + ".md"], name + ".md").None?
      ensures r.Ok? ==>
                var before := Parse(old(files)[name + ".md"], name + ".md").value;
                && files.Keys == old(files).Keys
                && (forall f | f in files && f != name + ".md" :: files[f] == old(files)[f])
                && Parse(files[name + ".md"], name + ".md") == Some(Touched(before, now))
                && Hotter(before, Touched(before, now), now)
    {
      hide Parse, Format, Clean, CleanField;
      r := Read(name);
      if r.Err? {
        return;
      }
      ghost var before := r.value;
      ParsedHasName(files[name + ".md"], name + ".md");
      ParsedIsClean(files[name + ".md"], name + ".md");
      var scene := r.value;
      scene := scene.(meta := scene.meta.(updated := now));
      scene := scene.(meta := scene.meta.(heat := Increment(scene.meta.heat)));
      r := Write(scene, now);
      TouchedIsClean(before, now);
      CleanReadsBack(Touched(before, now));
    }
  }

  function Dated(s: Scene, now: string): Scene {
    var updated := if s.meta.updated == "" then now else s.meta.updated;
    var created := if s.meta.created == "" then updated else s.meta.created;
    Scene(s.filename, Meta(created, updated, s.meta.summary, s.meta.heat), s.content)
  }

  /** One more heat and a new date; a scene without a creation date gets one. */
  function Touched(s: Scene, now: string): Scene {
    var created := if s.meta.created == "" then now else s.meta.created;
    Scene(s.filename, Meta(created, now, s.meta.summary, Increment(s.meta.heat)), s.content)
  }

  /** A touch adds one heat, wrapping at 64 bits, and sets the date; it sets the creation date only if there is none. */
  predicate Hotter(before: Scene, after: Scene, now: string) {
    && after.filename == before.filename && after.content == before.content
    && after.meta.summary == before.meta.summary && after.meta.updated == now
    && after.meta.created == (if before.meta.created == "" then now else before.meta.created)
    && after.meta.heat == if before.meta.heat == MAX_INT64 then MIN_INT64 else before.meta.heat + 1
  }

  lemma ParsedHasName(raw: string, filename: string)
    requires Parse(raw, filename).Some?
    ensures Parse(raw, filename).value.filename == filename
  {
    hide Trim, ExtractField, Index;
  }

  lemma TouchedIsClean(s: Scene, now: string)
    requires Clean(s) && CleanField(now)
    ensures Clean(Touched(s, now))
  {
    hide CleanField, Trimmed;
  }
}
