/**
 * What a raw response header block means: its lines, the block of the final
 * response, the fields of that block, and names compared without case.
 */
module HeaderSpec {
  import opened Common

  datatype Field = Field(name: string, value: string)

  const STATUS := "HTTP/"

  // ---- text ----

  function Find(s: string, c: char): (r: Option<nat>)
    ensures r.Some? ==> r.value < |s| && s[r.value] == c && forall j :: 0 <= j < r.value ==> s[j] != c
    ensures r.None? ==> c !in s
  {
    if s == [] then None
    else if s[0] == c then Some(0)
    else var r := Find(s[1..], c); if r.Some? then Some(r.value + 1) else None
  }

  lemma {:induction false} FindIs(s: string, c: char, i: nat)
    requires i < |s| && s[i] == c && c !in s[..i]
    ensures Find(s, c) == Some(i)
    decreases i
  {
    if i > 0 {
      assert s[0] == s[..i][0] && s[1..][..i - 1] == s[..i][1..];
      FindIs(s[1..], c, i - 1);
    }
  }

  /** Optional whitespace: space and horizontal tab. */
  predicate IsOws(c: char) {
    c == ' ' || c == '\t'
  }

  predicate AllOws(s: string) {
    forall i :: 0 <= i < |s| ==> IsOws(s[i])
  }

  function Trim(s: string): string
    decreases |s|
  {
    if s == "" then ""
    else if IsOws(s[0]) then Trim(s[1..])
    else if IsOws(s[|s| - 1]) then Trim(s[..|s| - 1])
    else s
  }

  /** Nothing at either end could be trimmed off. */
  predicate Trimmed(s: string) {
    s != "" ==> !IsOws(s[0]) && !IsOws(s[|s| - 1])
  }

  /** Trim is determined by what it leaves and what it takes away. */
  lemma {:induction false} TrimIs(before: string, core: string, after: string)
    requires AllOws(before) && AllOws(after) && Trimmed(core)
    ensures Trim(before + core + after) == core
    decreases |before| + |after|
  {
    var s := before + core + after;
    if before != "" {
      assert s[1..] == before[1..] + core + after;
      TrimIs(before[1..], core, after);
    } else if after != "" {
      assert s == core + after;
      if core == "" {
        assert s[1..] == "" + "" + after[1..];
        TrimIs("", "", after[1..]);
      } else {
        assert s[..|s| - 1] == "" + core + after[..|after| - 1];
        TrimIs("", core, after[..|after| - 1]);
      }
    } else {
      assert s == core;
    }
  }

  /** Only spaces and tabs are cut off, and none is left at either end. */
  lemma {:induction false} TrimCutsBlanks(s: string) returns (b: nat, e: nat)
    ensures b <= e <= |s| && Trim(s) == s[b..e]
    ensures forall k :: 0 <= k < b || e <= k < |s| ==> s[k] == ' ' || s[k] == '\t'
    ensures b < e ==> s[b] != ' ' && s[b] != '\t' && s[e - 1] != ' ' && s[e - 1] != '\t'
    decreases |s|
  {
    b, e := 0, |s|;
    if s != "" && IsOws(s[0]) {
      b, e := TrimCutsBlanks(s[1..]);
      b, e := b + 1, e + 1;
    } else if s != "" && IsOws(s[|s| - 1]) {
      b, e := TrimCutsBlanks(s[..|s| - 1]);
    }
  }

  // ---- lines and blocks ----

  /** The pieces between newlines; no piece after a final newline. */
  function Lines(s: string): seq<string>
    decreases |s|
  {
    if s == "" then []
    else
      match Find(s, '\n')
      case None => [s]
      case Some(i) => [s[..i]] + Lines(s[i + 1..])
  }

  predicate IsStatus(line: string) {
    STATUS <= line
  }

  /** The lines from the last status line on; all of them when there is none. */
  function FinalBlock(lines: seq<string>): seq<string>
    decreases |lines|
  {
    if lines == [] then []
    else if exists i :: 1 <= i < |lines| && IsStatus(lines[i]) then FinalBlock(lines[1..])
    else lines
  }

  function DropCr(line: string): string {
    if line != "" && line[|line| - 1] == '\r' then line[..|line| - 1] else line
  }

  /** A line without a colon is no field. */
  function FieldOf(line: string): Option<Field> {
    var l := DropCr(line);
    match Find(l, ':')
    case None => None
    case Some(i) => Some(Field(Trim(l[..i]), Trim(l[i + 1..])))
  }

  function AsList(f: Option<Field>): seq<Field> {
    if f.Some? then [f.value] else []
  }

  function FieldsOf(lines: seq<string>): seq<Field>
    decreases |lines|
  {
    if lines == [] then [] else AsList(FieldOf(lines[0])) + FieldsOf(lines[1..])
  }

  /** The fields of the final response, in order. */
  function Fields(raw: string): seq<Field> {
    FieldsOf(FinalBlock(Lines(raw)))
  }

  lemma {:induction false} FieldsOfConcat(a: seq<string>, b: seq<string>)
    ensures FieldsOf(a + b) == FieldsOf(a) + FieldsOf(b)
    decreases |a|
  {
    hide FieldOf, AsList;
    if a == [] {
      assert a + b == b;
    } else {
      assert (a + b)[0] == a[0] && (a + b)[1..] == a[1..] + b;
      FieldsOfConcat(a[1..], b);
    }
  }

  /** Everything up to a newline splits into lines by itself. */
  lemma {:induction false} LinesConcat(a: string, b: string)
    requires a == "" || a[|a| - 1] == '\n'
    ensures Lines(a + b) == Lines(a) + Lines(b)
    decreases |a|
  {
    if a == "" {
      assert a + b == b;
    } else {
      assert a[|a| - 1] in a;
      var i := Find(a, '\n').value;
      FindIs(a + b, '\n', i) by { assert (a + b)[..i] == a[..i]; }
      assert (a + b)[i + 1..] == a[i + 1..] + b;
      LinesConcat(a[i + 1..], b);
    }
  }

  lemma {:induction false} FinalBlockSkips(a: seq<string>, b: seq<string>)
    requires b != [] && IsStatus(b[0])
    ensures FinalBlock(a + b) == FinalBlock(b)
    decreases |a|
  {
    if a == [] {
      assert a + b == b;
    } else {
      assert (a + b)[|a|] == b[0];
      assert (a + b)[1..] == a[1..] + b;
      FinalBlockSkips(a[1..], b);
    }
  }

  lemma FirstLineIsStatus(b: string)
    requires STATUS <= b
    ensures Lines(b) != [] && IsStatus(Lines(b)[0])
  {
    var f := Find(b, '\n');
    if f.Some? {
      assert b[f.value] == '\n';
      assert forall j :: 0 <= j < 5 ==> b[j] == STATUS[j];
      assert f.value >= 5;
    }
  }

  /** Only the final response counts: whatever precedes its status line changes nothing. */
  lemma FinalBlockOnly(a: string, b: string)
    requires "HTTP/" <= b
    ensures Fields(a + "\n" + b) == Fields(b)
  {
    var p := a + "\n";
    LinesConcat(p, b);
    FirstLineIsStatus(b);
    FinalBlockSkips(Lines(p), Lines(b));
  }

  // ---- printing ----

  const CRLF := "\r\n"

  function PrintField(f: Field): string {
    f.name + ": " + f.value + CRLF
  }

  function PrintFields(fs: seq<Field>): string
    decreases |fs|
  {
    if fs == [] then "" else PrintField(fs[0]) + PrintFields(fs[1..])
  }

  /** One response head: status line, fields, blank line. */
  function Print(status: string, fs: seq<Field>): string {
    status + CRLF + PrintFields(fs) + CRLF
  }

  predicate PrintableStatus(status: string) {
    "HTTP/" <= status && '\n' !in status
  }

  predicate PrintableField(f: Field) {
    && Trimmed(f.name) && ':' !in f.name && '\n' !in f.name && !("HTTP/" <= f.name)
    && Trimmed(f.value) && '\n' !in f.value
  }

  lemma LineFirst(line: string, rest: string)
    requires '\n' !in line
    ensures Lines(line + "\n" + rest) == [line] + Lines(rest)
  {
    var s := line + "\n" + rest;
    FindIs(s, '\n', |line|) by { assert s[..|line|] == line; }
    assert s[..|line|] == line && s[|line| + 1..] == rest;
  }

  /** A status line is one up to its first colon. */
  lemma StatusBeforeColon(name: string, tail: string)
    requires IsStatus(name + ":" + tail)
    ensures IsStatus(name)
  {
    var line := name + ":" + tail;
    assert forall k :: 0 <= k < 5 ==> line[k] == STATUS[k] && line[k] != ':';
    assert line[|name|] == ':';
    assert forall k :: 0 <= k < 5 ==> name[k] == line[k];
  }

  lemma FieldLine(f: Field)
    requires PrintableField(f)
    ensures var line := f.name + ": " + f.value + "\r"; FieldOf(line) == Some(f) && !IsStatus(line) && '\n' !in line
  {
    hide Trim, Find, Trimmed, IsStatus;
    var line, l := f.name + ": " + f.value + "\r", f.name + ": " + f.value;
    assert DropCr(line) == l;
    assert line == f.name + ":" + (" " + f.value + "\r");
    if IsStatus(line) {
      StatusBeforeColon(f.name, " " + f.value + "\r");
    }
    ColonSplits(f.name, " " + f.value);
    assert l == f.name + ":" + (" " + f.value);
    TrimIs("", f.name, "");
    assert "" + f.name + "" == f.name;
    TrimIs(" ", f.value, "");
    assert " " + f.value + "" == " " + f.value;
  }

  lemma ColonSplits(name: string, tail: string)
    requires ':' !in name
    ensures var l := name + ":" + tail; Find(l, ':') == Some(|name|) && l[..|name|] == name && l[|name| + 1..] == tail
  {
    var l := name + ":" + tail;
    assert l[..|name|] == name;
    FindIs(l, ':', |name|);
  }

  lemma OneLine(line: string)
    ensures FieldsOf([line]) == AsList(FieldOf(line)) && FieldsOf([line]) + [] == FieldsOf([line])
  {
    hide FieldOf, AsList;
    assert FieldsOf([line]) == AsList(FieldOf(line)) + FieldsOf([]);
  }

  lemma BlankLine()
    ensures FieldOf("\r") == None && !IsStatus("\r") && Lines("") == []
  {
    assert DropCr("\r") == "";
  }

  lemma {:induction false} PrintedFields(fs: seq<Field>)
    requires forall i :: 0 <= i < |fs| ==> PrintableField(fs[i])
    ensures var ls := Lines(PrintFields(fs) + CRLF);
      FieldsOf(ls) == fs && forall i :: 0 <= i < |ls| ==> !IsStatus(ls[i])
    decreases |fs|
  {
    hide FieldOf, FieldsOf, Lines, IsStatus, PrintableField;
    if fs == [] {
      assert PrintFields(fs) + CRLF == "\r" + "\n" + "";
      LineFirst("\r", "");
      BlankLine();
      OneLine("\r");
      assert ["\r"] + [] == ["\r"];
    } else {
      var line := fs[0].name + ": " + fs[0].value + "\r";
      var rest := PrintFields(fs[1..]) + CRLF;
      assert PrintFields(fs) + CRLF == line + "\n" + rest;
      FieldLine(fs[0]);
      LineFirst(line, rest);
      PrintedFields(fs[1..]);
      FieldsOfConcat([line], Lines(rest));
      OneLine(line);
    }
  }

  lemma FirstIsFinal(ls: seq<string>)
    requires ls != [] && forall i :: 1 <= i < |ls| ==> !IsStatus(ls[i])
    ensures FinalBlock(ls) == ls
  {
  }

  lemma PrintedBlock(status: string, fs: seq<Field>)
    requires PrintableStatus(status) && forall i :: 0 <= i < |fs| ==> PrintableField(fs[i])
    ensures Fields(Print(status, fs)) == FieldsOf([status + "\r"]) + fs
  {
    var line, rest := status + "\r", PrintFields(fs) + CRLF;
    assert Print(status, fs) == line + "\n" + rest;
    LineFirst(line, rest);
    PrintedFields(fs);
    hide Lines, FieldsOf, FinalBlock;
    FirstIsFinal([line] + Lines(rest));
    FieldsOfConcat([line], Lines(rest));
  }

  lemma StatusFields(status: string)
    ensures FieldsOf([status + "\r"]) == [] <==> ':' !in status
  {
    var line := status + "\r";
    assert DropCr(line) == status;
    assert FieldsOf([line]) == AsList(FieldOf(line)) + FieldsOf([]);
  }

  /**
   * Round trip: whatever earlier hops left, parsing a printed head gives back
   * its fields in order, exactly when its status line has no colon (one would
   * be read as a field).
   */
  lemma RoundTrip(earlier: string, status: string, fs: seq<Field>)
    requires earlier == "" || earlier[|earlier| - 1] == '\n'
    requires PrintableStatus(status) && forall i :: 0 <= i < |fs| ==> PrintableField(fs[i])
    ensures Fields(earlier + Print(status, fs)) == fs <==> ':' !in status
  {
    var b := Print(status, fs);
    assert STATUS <= b;
    if earlier == "" {
      assert earlier + b == b;
    } else {
      var a := earlier[..|earlier| - 1];
      assert earlier == a + "\n";
      FinalBlockOnly(a, b);
    }
    PrintedBlock(status, fs);
    StatusFields(status);
    assert |FieldsOf([status + "\r"]) + fs| == |FieldsOf([status + "\r"])| + |fs|;
  }

  /** What becomes of a status line that fails the condition. */
  lemma ColonMakesAField(name: string, tail: string)
    requires PrintableStatus(name + ":" + tail) && ':' !in name && Trimmed(name) && Trimmed(tail)
    ensures Fields(Print(name + ":" + tail, [])) == [Field(name, tail)]
  {
    hide Find, Trim, Fields, FieldsOf, Print, PrintableStatus, Trimmed;
    var status := name + ":" + tail;
    PrintedBlock(status, []);
    assert DropCr(status + "\r") == status;
    ColonSplits(name, tail);
    TrimIs("", name, "");
    TrimIs("", tail, "");
    assert "" + name + "" == name && "" + tail + "" == tail;
    OneLine(status + "\r");
  }

  /** Such a status line: the reason phrase "a:b" comes back as a field. */
  lemma ColonInReasonPhrase()
    ensures Fields(Print("HTTP/1.1 200 a:b", [])) == [Field("HTTP/1.1 200 a", "b")]
  {
    hide Fields, Print;
    assert "HTTP/1.1 200 a:b" == "HTTP/1.1 200 a" + ":" + "b";
    ColonMakesAField("HTTP/1.1 200 a", "b");
  }

  // ---- names ----

  function Lower(c: char): char {
    if 'A' <= c <= 'Z' then c - 'A' + 'a' else c
  }

  function Fold(s: string): (r: string)
    ensures |r| == |s| && forall i :: 0 <= i < |s| ==> r[i] == Lower(s[i])
  {
    seq(|s|, i requires 0 <= i < |s| => Lower(s[i]))
  }

  predicate CiEqual(a: string, b: string) {
    |a| == |b| && forall i :: 0 <= i < |a| ==> Lower(a[i]) == Lower(b[i])
  }

  const WORD := 0x1_0000_0000_0000_0000

  /** CiHash, with size_t arithmetic wrapping at 64 bits. */
  function CiHash(s: string): nat
    decreases |s|
  {
    if s == "" then 0
    else (CiHash(s[..|s| - 1]) * 31 + (Lower(s[|s| - 1]) as int) % 256) % WORD
  }

  lemma SameLetter(x: char, y: char)
    ensures Lower(x) == Lower(y) <==>
      || x == y
      || ('A' <= x <= 'Z' && y as int == x as int + 32)
      || ('A' <= y <= 'Z' && x as int == y as int + 32)
  {
  }

  /** Names are equal just when each pair of characters is the same but for the case of an ASCII letter. */
  lemma CiEqualIsLetterCase(a: string, b: string)
    ensures CiEqual(a, b) <==>
      |a| == |b| && forall i :: 0 <= i < |a| ==>
        || a[i] == b[i]
        || ('A' <= a[i] <= 'Z' && b[i] as int == a[i] as int + 32)
        || ('A' <= b[i] <= 'Z' && a[i] as int == b[i] as int + 32)
  {
    hide Lower;
    if |a| == |b| {
      forall i | 0 <= i < |a| {
        SameLetter(a[i], b[i]);
      }
    }
  }

  // ---- the hash as a number ----

  function Power31(n: nat): nat {
    if n == 0 then 1 else 31 * Power31(n - 1)
  }

  /** The lower-case byte of c. */
  function Digit(c: char): nat {
    (c as int + if 'A' <= c <= 'Z' then 32 else 0) % 256
  }

  /** The digits of s to base 31, the first the most significant. */
  function Number(s: string): nat
    decreases |s|
  {
    if s == "" then 0 else Digit(s[0]) * Power31(|s| - 1) + Number(s[1..])
  }

  lemma {:induction false} NumberNext(s: string, c: char)
    ensures Number(s + [c]) == Number(s) * 31 + Digit(c)
    decreases |s|
  {
    hide Digit;
    var r := s + [c];
    if s == "" {
      assert r[1..] == "" && Power31(0) == 1;
    } else {
      NumberNext(s[1..], c);
      assert r[1..] == s[1..] + [c] && r[0] == s[0];
      Scaled(Digit(s[0]), |s|, Number(s[1..]), Digit(c));
    }
  }

  lemma Scaled(d: nat, n: nat, rest: nat, last: nat)
    requires n > 0
    ensures d * Power31(n) + (rest * 31 + last) == (d * Power31(n - 1) + rest) * 31 + last
  {
    var p := Power31(n - 1);
    assert Power31(n) == 31 * p;
    assert d * (31 * p) == (d * p) * 31;
  }

  /** The hash, for all its wrapping on the way, is the number the lower-case spelling makes to base 31, modulo 2^64. */
  lemma {:induction false} HashIsANumber(s: string)
    ensures CiHash(s) == Number(s) % 0x1_0000_0000_0000_0000
    decreases |s|
  {
    if s != "" {
      var init, c := s[..|s| - 1], s[|s| - 1];
      assert s == init + [c];
      HashIsANumber(init);
      NumberNext(init, c);
      assert (Lower(c) as int) % 256 == Digit(c);
      WrapsOnce(Number(init), Digit(c));
    }
  }

  lemma WrapsOnce(n: nat, d: nat)
    ensures ((n % WORD) * 31 + d) % WORD == (n * 31 + d) % WORD
  {
    var q, r := n / WORD, n % WORD;
    assert n * 31 + d == (r * 31 + d) + (q * 31) * WORD;
    WholeWords(r * 31 + d, q * 31);
  }

  lemma {:induction false} WholeWords(x: nat, k: nat)
    ensures (x + k * WORD) % WORD == x % WORD
  {
    if k > 0 {
      WholeWords(x, k - 1);
      assert x + k * WORD == (x + (k - 1) * WORD) + WORD;
    }
  }

  /** CiEqual is what having the same folded spelling means, hence an equivalence. */
  lemma CiEqualFolds(a: string, b: string)
    ensures CiEqual(a, b) <==> Fold(a) == Fold(b)
  {
    if Fold(a) == Fold(b) {
      forall i | 0 <= i < |a| ensures Lower(a[i]) == Lower(b[i]) {
        assert Fold(a)[i] == Fold(b)[i];
      }
    }
  }

  lemma CiEqualIsEquivalence(a: string, b: string, c: string)
    ensures CiEqual(a, a)
    ensures CiEqual(a, b) <==> CiEqual(b, a)
    ensures CiEqual(a, b) && CiEqual(b, c) ==> CiEqual(a, c)
  {
    CiEqualFolds(a, b);
    CiEqualFolds(b, c);
    CiEqualFolds(a, c);
  }

  /** Equal names meet in one bucket. */
  lemma {:induction false} EqualNamesHashAlike(a: string, b: string)
    requires CiEqual(a, b)
    ensures CiHash(a) == CiHash(b)
    decreases |a|
  {
    if a != "" {
      EqualNamesHashAlike(a[..|a| - 1], b[..|b| - 1]);
      assert Lower(a[|a| - 1]) == Lower(b[|b| - 1]);
    }
  }

  // ---- combining ----

  /** The values of the fields called name, in order. */
  function Values(fs: seq<Field>, name: string): seq<string>
    decreases |fs|
  {
    if fs == [] then []
    else
      var init, last := fs[..|fs| - 1], fs[|fs| - 1];
      Values(init, name) + if CiEqual(last.name, name) then [last.value] else []
  }

  /** Values with ", " between them. */
  function Join(vs: seq<string>): string
    decreases |vs|
  {
    if vs == [] then ""
    else if |vs| == 1 then vs[0]
    else Join(vs[..|vs| - 1]) + ", " + vs[|vs| - 1]
  }

  /** What the fields say for name, if they mention it. */
  function Combined(fs: seq<Field>, name: string): Option<string> {
    var vs := Values(fs, name);
    if vs == [] then None else Some(Join(vs))
  }

  lemma JoinNext(vs: seq<string>, v: string)
    ensures Join(vs + [v]) == if vs == [] then v else Join(vs) + ", " + v
  {
    assert (vs + [v])[..|vs|] == vs;
  }

  /** What is known for name once field f has been seen too. */
  function Merge(known: Option<string>, f: Field, name: string): Option<string> {
    if !CiEqual(f.name, name) then known
    else if known.Some? then Some(known.value + ", " + f.value) else Some(f.value)
  }

  lemma CombinedNext(fs: seq<Field>, f: Field, name: string)
    ensures Combined(fs + [f], name) == Merge(Combined(fs, name), f, name)
  {
    assert (fs + [f])[..|fs|] == fs;
    var vs := Values(fs, name);
    JoinNext(vs, f.value);
    assert vs + [] == vs;
  }

  /** Two fields of one name, however spelled, are combined in order; a field of another name has no part in it. */
  lemma TwoFieldsCombine(f: Field, g: Field, name: string)
    ensures Combined([f, g], name) ==
      if CiEqual(f.name, name) && CiEqual(g.name, name) then Some(f.value + ", " + g.value)
      else if CiEqual(f.name, name) then Some(f.value)
      else if CiEqual(g.name, name) then Some(g.value)
      else None
  {
    hide CiEqual;
    assert [f, g] == [f] + [g] && [f] == [] + [f];
    CombinedNext([], f, name);
    CombinedNext([f], g, name);
  }

  /** Asking for "content-type" finds Content-Type. */
  lemma ContentTypeIsFound()
    ensures Combined(Fields("HTTP/1.1 200 OK" + "\r\n" + ("Content-Type" + ": " + "text/html" + "\r\n") + "\r\n"), "content-type") == Some("text/html")
  {
    hide Fields, Print, Combined, CiEqual, PrintableField, PrintableStatus;
    var f := Field("Content-Type", "text/html");
    ContentTypePrints();
    ContentTypeIsPrintable();
    OkIsPrintable();
    RoundTrip("", "HTTP/1.1 200 OK", [f]);
    assert "" + Print("HTTP/1.1 200 OK", [f]) == Print("HTTP/1.1 200 OK", [f]);
    ContentTypes();
    CombinedNext([], f, "content-type");
    assert [] + [f] == [f];
    NoFields("content-type");
  }

  lemma NoFields(name: string)
    ensures Combined([], name) == None
  {
  }

  lemma ContentTypePrints()
    ensures var f := Field("Content-Type", "text/html");
      Print("HTTP/1.1 200 OK", [f]) == "HTTP/1.1 200 OK" + "\r\n" + ("Content-Type" + ": " + "text/html" + "\r\n") + "\r\n"
  {
    var f := Field("Content-Type", "text/html");
    assert PrintFields([f]) == PrintField(f) + PrintFields([]);
    assert PrintField(f) + "" == PrintField(f);
  }

  lemma ContentTypeIsPrintable()
    ensures PrintableField(Field("Content-Type", "text/html"))
  {
  }

  lemma OkIsPrintable()
    ensures PrintableStatus("HTTP/1.1 200 OK") && ':' !in "HTTP/1.1 200 OK"
  {
  }

  lemma ContentTypes()
    ensures CiEqual("Content-Type", "content-type")
  {
    var a, b := "Content-Type", "content-type";
    assert a == "C" + "ontent-" + "T" + "ype" && b == "c" + "ontent-" + "t" + "ype";
    assert forall i :: 1 <= i < 8 ==> a[i] == "ontent-"[i - 1] == b[i];
    assert forall i :: 9 <= i < 12 ==> a[i] == "ype"[i - 9] == b[i];
    assert Lower(a[0]) == Lower(b[0]) && Lower(a[8]) == Lower(b[8]);
  }

  /** Combined does not depend on the spelling asked for. */
  lemma {:induction false} CombinedCi(fs: seq<Field>, a: string, b: string)
    requires CiEqual(a, b)
    ensures Values(fs, a) == Values(fs, b)
    decreases |fs|
  {
    if fs != [] {
      CombinedCi(fs[..|fs| - 1], a, b);
      CiEqualIsEquivalence(fs[|fs| - 1].name, a, b);
      CiEqualIsEquivalence(fs[|fs| - 1].name, b, a);
      CiEqualIsEquivalence(a, b, a);
    }
  }

  /** n is how the first field of its name spells it. */
  ghost predicate FirstSpelling(fs: seq<Field>, n: string) {
    exists k :: 0 <= k < |fs| && fs[k].name == n && Values(fs[..k], n) == []
  }

  lemma FirstSpellingNext(fs: seq<Field>, f: Field, n: string)
    ensures FirstSpelling(fs + [f], n) <==> FirstSpelling(fs, n) || (f.name == n && Combined(fs, n) == None)
  {
    var all := fs + [f];
    forall k | 0 <= k <= |fs| ensures all[..k] == fs[..k] {}
    assert fs[..|fs|] == fs;
    if FirstSpelling(fs, n) {
      var k :| 0 <= k < |fs| && fs[k].name == n && Values(fs[..k], n) == [];
      assert all[k].name == n;
    } else if f.name == n && Combined(fs, n) == None {
      assert all[|fs|] == f;
    }
    if FirstSpelling(all, n) {
      var k :| 0 <= k < |all| && all[k].name == n && Values(all[..k], n) == [];
      assert k < |fs| ==> fs[k].name == n;
    }
  }
}
