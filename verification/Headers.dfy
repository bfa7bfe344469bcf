/** The header reader of Response, as it scans: every loop proved against HeaderSpec. */
module Headers {
  import opened Common
  import opened HeaderSpec

  // ---- std::string_view ----

  predicate At(s: string, p: string, k: nat) {
    k + |p| <= |s| && s[k..k + |p|] == p
  }

  /** find(c, pos). */
  method FindFrom(s: string, c: char, pos: nat) returns (r: Option<nat>)
    requires pos <= |s|
    ensures r == match Find(s[pos..], c) case None => None case Some(i) => Some(pos + i)
  {
    var i := pos;
    while i < |s|
      invariant pos <= i <= |s|
      invariant c !in s[pos..i]
    {
      if s[i] == c {
        assert s[pos..][..i - pos] == s[pos..i];
        FindIs(s[pos..], c, i - pos);
        return Some(i);
      }
      assert s[pos..i + 1] == s[pos..i] + [s[i]];
      i := i + 1;
    }
    assert s[pos..i] == s[pos..];
    return None;
  }

  /** rfind(p): the last place where p occurs. */
  method RFind(s: string, p: string) returns (r: Option<nat>)
    ensures r.Some? ==> At(s, p, r.value) && forall k: nat :: r.value < k ==> !At(s, p, k)
    ensures r.None? ==> forall k: nat :: !At(s, p, k)
  {
    if |p| > |s| {
      return None;
    }
    var i := |s| - |p| + 1;
    while i > 0
      invariant 0 <= i <= |s| - |p| + 1
      invariant forall k: nat :: i <= k ==> !At(s, p, k)
    {
      i := i - 1;
      if s[i..i + |p|] == p {
        return Some(i);
      }
    }
    return None;
  }

  method TrimView(s: string) returns (r: string)
    ensures r == Trim(s)
  {
    var b := 0;
    while b < |s| && IsOws(s[b])
      invariant 0 <= b <= |s| && AllOws(s[..b])
    {
      b := b + 1;
    }
    if b == |s| {
      TrimIs(s, "", "");
      assert s + "" + "" == s;
      return "";
    }
    var e := |s| - 1;
    while IsOws(s[e])
      invariant b <= e < |s| && AllOws(s[e + 1..])
      decreases e
    {
      e := e - 1;
    }
    assert s == s[..b] + s[b..e + 1] + s[e + 1..];
    TrimIs(s[..b], s[b..e + 1], s[e + 1..]);
    return s[b..e + 1];
  }

  // ---- names ----

  method HashOf(s: string) returns (h: nat)
    ensures h == CiHash(s)
  {
    h := 0;
    for i := 0 to |s|
      invariant h == CiHash(s[..i])
    {
      assert s[..i + 1][..i] == s[..i];
      h := (h * 31 + (Lower(s[i]) as int) % 256) % WORD;
    }
    assert s[..|s|] == s;
  }

  method EqualNames(a: string, b: string) returns (r: bool)
    ensures r <==> CiEqual(a, b)
  {
    if |a| != |b| {
      return false;
    }
    for i := 0 to |a|
      invariant forall j :: 0 <= j < i ==> Lower(a[j]) == Lower(b[j])
    {
      if Lower(a[i]) != Lower(b[i]) {
        return false;
      }
    }
    return true;
  }

  // ---- the unordered_map ----

  /** The value of the first entry that CiEqual matches. */
  function Scan(entries: seq<Field>, name: string): (r: Option<string>)
    ensures r.None? <==> forall i :: 0 <= i < |entries| ==> !CiEqual(entries[i].name, name)
  {
    if entries == [] then None
    else if CiEqual(entries[0].name, name) then Some(entries[0].value)
    else Scan(entries[1..], name)
  }

  function ScanAll(buckets: seq<seq<Field>>, name: string): Option<string> {
    if buckets == [] then None
    else if Scan(buckets[0], name).Some? then Scan(buckets[0], name)
    else ScanAll(buckets[1..], name)
  }

  /** Each entry is in the bucket of its hash. */
  ghost predicate Placed(buckets: seq<seq<Field>>) {
    && buckets != []
    && forall b, i :: 0 <= b < |buckets| && 0 <= i < |buckets[b]| ==> CiHash(buckets[b][i].name) % |buckets| == b
  }

  function Bucketed(buckets: seq<seq<Field>>, name: string): Option<string>
    requires buckets != []
  {
    Scan(buckets[CiHash(name) % |buckets|], name)
  }

  lemma {:induction false} ScanAllIs(buckets: seq<seq<Field>>, name: string, at: nat)
    requires at < |buckets|
    requires forall b :: 0 <= b < |buckets| && b != at ==> Scan(buckets[b], name).None?
    ensures ScanAll(buckets, name) == Scan(buckets[at], name)
  {
    if at > 0 {
      ScanAllIs(buckets[1..], name, at - 1);
    } else if |buckets| > 1 && Scan(buckets[0], name).None? {
      ScanAllIs(buckets[1..], name, 0);
    }
  }

  /** Looking in one bucket finds an entry exactly when scanning all of them does, and the same one. */
  lemma BucketedIsLinear(buckets: seq<seq<Field>>, name: string)
    requires Placed(buckets)
    ensures Bucketed(buckets, name) == ScanAll(buckets, name)
  {
    var at := CiHash(name) % |buckets|;
    forall b | 0 <= b < |buckets| && b != at ensures Scan(buckets[b], name).None? {
      forall i | 0 <= i < |buckets[b]| ensures !CiEqual(buckets[b][i].name, name) {
        if CiEqual(buckets[b][i].name, name) {
          EqualNamesHashAlike(buckets[b][i].name, name);
        }
      }
    }
    ScanAllIs(buckets, name, at);
  }

  /** The first match. */
  lemma {:induction false} ScanIs(entries: seq<Field>, name: string, i: nat)
    requires i < |entries| && CiEqual(entries[i].name, name)
    requires forall j :: 0 <= j < i ==> !CiEqual(entries[j].name, name)
    ensures Scan(entries, name) == Some(entries[i].value)
    decreases i
  {
    if i > 0 {
      ScanIs(entries[1..], name, i - 1);
    }
  }

  /** A new value for the first entry matching key shows for every spelling of it and for nothing else. */
  lemma {:induction false} ScanUpdated(entries: seq<Field>, i: nat, key: string, v: string, name: string)
    requires i < |entries| && CiEqual(entries[i].name, key)
    requires forall j :: 0 <= j < i ==> !CiEqual(entries[j].name, key)
    ensures Scan(entries[i := entries[i].(value := v)], name) == if CiEqual(key, name) then Some(v) else Scan(entries, name)
    decreases i
  {
    var next := entries[i := entries[i].(value := v)];
    CiEqualIsEquivalence(entries[i].name, key, name);
    CiEqualIsEquivalence(key, entries[i].name, name);
    if i > 0 {
      CiEqualIsEquivalence(entries[0].name, name, key);
      CiEqualIsEquivalence(key, name, entries[0].name);
      assert next[1..] == entries[1..][i - 1 := entries[i].(value := v)];
      ScanUpdated(entries[1..], i - 1, key, v, name);
    }
  }

  lemma {:induction false} ScanAppended(entries: seq<Field>, f: Field, name: string)
    ensures Scan(entries + [f], name) ==
      if Scan(entries, name).Some? then Scan(entries, name) else if CiEqual(f.name, name) then Some(f.value) else None
    decreases |entries|
  {
    if entries != [] {
      assert (entries + [f])[1..] == entries[1..] + [f];
      ScanAppended(entries[1..], f, name);
    }
  }

  /** n is a key, in this spelling. */
  ghost predicate HasKey(buckets: seq<seq<Field>>, n: string) {
    exists b, i :: 0 <= b < |buckets| && 0 <= i < |buckets[b]| && buckets[b][i].name == n
  }

  lemma KeysAfter(before: seq<seq<Field>>, at: nat, bucket: seq<Field>, key: string, n: string)
    requires at < |before| && |before[at]| <= |bucket| <= |before[at]| + 1
    requires forall i :: 0 <= i < |before[at]| ==> bucket[i].name == before[at][i].name
    requires |bucket| > |before[at]| ==> bucket[|before[at]|].name == key
    ensures HasKey(before[at := bucket], n) <==> HasKey(before, n) || (|bucket| > |before[at]| && n == key)
  {
    var next: seq<seq<Field>> := before[at := bucket];
    if HasKey(before, n) {
      var b, i :| 0 <= b < |before| && 0 <= i < |before[b]| && before[b][i].name == n;
      assert next[b][i].name == n;
    } else if |bucket| > |before[at]| && n == key {
      assert next[at][|before[at]|].name == n;
    }
    if HasKey(next, n) {
      var b, i :| 0 <= b < |next| && 0 <= i < |next[b]| && next[b][i].name == n;
      assert (b == at && i == |before[at]|) || before[b][i].name == n;
    }
  }

  class CiMap {
    var buckets: seq<seq<Field>>

    constructor (n: nat)
      requires n > 0
      ensures Placed(buckets) && forall name :: Lookup(name) == None && !HasKey(buckets, name)
    {
      buckets := seq(n, _ => []);
    }

    ghost function Lookup(name: string): Option<string>
      reads this
    {
      if buckets == [] then None else Bucketed(buckets, name)
    }

    /** find(name): the value, if there is an entry. */
    method Find(name: string) returns (r: Option<string>)
      requires Placed(buckets)
      ensures r == Lookup(name) == ScanAll(buckets, name)
    {
      BucketedIsLinear(buckets, name);
      var h := HashOf(name);
      var bucket := buckets[h % |buckets|];
      var i := Position(bucket, name);
      if i < |bucket| {
        ScanIs(bucket, name, i);
        return Some(bucket[i].value);
      }
      return None;
    }

    method Position(bucket: seq<Field>, name: string) returns (i: nat)
      ensures i <= |bucket| && (i < |bucket| ==> CiEqual(bucket[i].name, name))
      ensures forall j :: 0 <= j < i ==> !CiEqual(bucket[j].name, name)
    {
      i := 0;
      while i < |bucket|
        invariant i <= |bucket|
        invariant forall j :: 0 <= j < i ==> !CiEqual(bucket[j].name, name)
      {
        var same := EqualNames(bucket[i].name, name);
        if same {
          return;
        }
        i := i + 1;
      }
    }

    /** try_emplace, and comma-combining when the name, in any spelling, is already there. */
    method Add(f: Field)
      requires Placed(buckets)
      modifies this
      ensures Placed(buckets)
      ensures forall name :: Lookup(name) == Merge(old(Lookup(name)), f, name)
      ensures forall n :: HasKey(buckets, n) <==> old(HasKey(buckets, n)) || (n == f.name && old(Lookup(f.name)) == None)
    {
      hide Merge, CiEqual, HasKey, Scan;
      var h := HashOf(f.name);
      var at := h % |buckets|;
      var bucket := buckets[at];
      var i := Position(bucket, f.name);
      if i == |bucket| {
        buckets := buckets[at := bucket + [f]];
        forall name ensures Lookup(name) == Merge(old(Lookup(name)), f, name) {
          AddedNew(old(buckets), bucket, at, f, name);
        }
        NotThere(bucket, f.name);
        forall n ensures HasKey(buckets, n) <==> old(HasKey(buckets, n)) || n == f.name {
          KeysAfter(old(buckets), at, bucket + [f], f.name, n);
        }
      } else {
        var v := bucket[i].value + ", " + f.value;
        buckets := buckets[at := bucket[i := bucket[i].(value := v)]];
        forall name ensures Lookup(name) == Merge(old(Lookup(name)), f, name) {
          AddedTo(old(buckets), bucket, at, i, f, name);
        }
        ScanIs(bucket, f.name, i);
        forall n ensures HasKey(buckets, n) <==> old(HasKey(buckets, n)) {
          KeysAfter(old(buckets), at, bucket[i := bucket[i].(value := v)], f.name, n);
        }
      }
    }
  }

  lemma NotThere(bucket: seq<Field>, name: string)
    requires forall j :: 0 <= j < |bucket| ==> !CiEqual(bucket[j].name, name)
    ensures Scan(bucket, name) == None
  {
  }

  lemma AddedNew(before: seq<seq<Field>>, bucket: seq<Field>, at: nat, f: Field, name: string)
    requires before != [] && at == CiHash(f.name) % |before| && bucket == before[at]
    requires forall j :: 0 <= j < |bucket| ==> !CiEqual(bucket[j].name, f.name)
    ensures Bucketed(before[at := bucket + [f]], name) == Merge(Bucketed(before, name), f, name)
  {
    ScanAppended(bucket, f, name);
    if CiEqual(f.name, name) {
      EqualNamesHashAlike(f.name, name);
      forall j | 0 <= j < |bucket| ensures !CiEqual(bucket[j].name, name) {
        CiEqualIsEquivalence(f.name, name, f.name);
        CiEqualIsEquivalence(bucket[j].name, name, f.name);
      }
    }
  }

  lemma AddedTo(before: seq<seq<Field>>, bucket: seq<Field>, at: nat, i: nat, f: Field, name: string)
    requires before != [] && at == CiHash(f.name) % |before| && bucket == before[at]
    requires i < |bucket| && CiEqual(bucket[i].name, f.name) && forall j :: 0 <= j < i ==> !CiEqual(bucket[j].name, f.name)
    ensures var v := bucket[i].value + ", " + f.value;
      Bucketed(before[at := bucket[i := bucket[i].(value := v)]], name) == Merge(Bucketed(before, name), f, name)
  {
    ScanUpdated(bucket, i, f.name, bucket[i].value + ", " + f.value, name);
    if CiEqual(f.name, name) {
      EqualNamesHashAlike(f.name, name);
      ScanUpdated(bucket, i, f.name, bucket[i].value, name);
      assert bucket[i := bucket[i].(value := bucket[i].value)] == bucket;
    }
  }

  // ---- Response ----

  lemma AtSuffix(s: string, p: string, from: nat, k: nat)
    requires from <= |s|
    ensures At(s[from..], p, k) <==> At(s, p, from + k)
  {
    if from + k + |p| <= |s| {
      assert s[from..][k..k + |p|] == s[from + k..from + k + |p|];
    }
  }

  /** The scan's starting point is the final block. */
  lemma LastStatusStartsBlock(s: string, at: Option<nat>)
    requires at.Some? ==> At(s, "\n" + STATUS, at.value) && forall k: nat :: at.value < k ==> !At(s, "\n" + STATUS, k)
    requires at.None? ==> forall k: nat :: !At(s, "\n" + STATUS, k)
    ensures FinalBlock(Lines(s)) == Lines(if at.Some? then s[at.value + 1..] else s)
  {
    var p := "\n" + STATUS;
    if at.Some? {
      var a, b := s[..at.value + 1], s[at.value + 1..];
      assert s == a + b && s[at.value..at.value + 6][1..] == b[..5];
      assert s[at.value..at.value + 6][0] == '\n';
      LinesConcat(a, b);
      FirstLineIsStatus(b);
      FinalBlockSkips(Lines(a), Lines(b));
      forall k: nat ensures At(b, p, k) <==> At(s, p, at.value + 1 + k) { AtSuffix(s, p, at.value + 1, k); }
      NoLaterStatus(b);
    } else {
      NoLaterStatus(s);
    }
  }

  lemma {:induction false} NoLaterStatus(s: string)
    requires forall k: nat :: !At(s, "\n" + STATUS, k)
    ensures FinalBlock(Lines(s)) == Lines(s)
    ensures forall i :: 1 <= i < |Lines(s)| ==> !IsStatus(Lines(s)[i])
    decreases |s|
  {
    var f := HeaderSpec.Find(s, '\n');
    if s != "" && f.Some? {
      var rest := s[f.value + 1..];
      forall k: nat ensures !At(rest, "\n" + STATUS, k) { AtSuffix(s, "\n" + STATUS, f.value + 1, k); }
      NoLaterStatus(rest);
      if rest != "" && IsStatus(Lines(rest)[0]) {
        StatusAfterNewline(s, f.value);
      }
    }
  }

  lemma StatusAfterNewline(s: string, k: nat)
    requires k + 1 < |s| && s[k] == '\n' && Lines(s[k + 1..]) != [] && IsStatus(Lines(s[k + 1..])[0])
    ensures At(s, "\n" + STATUS, k)
  {
    var rest := s[k + 1..];
    assert Lines(rest)[0] <= rest;
    assert s[k..k + 6] == "\n" + rest[..5];
  }

  class Response {
    const headerData: string

    constructor (headerData: string)
      ensures this.headerData == headerData
    {
      this.headerData := headerData;
    }

    /** for_each_field: the calls its visitor receives, in order. */
    method ForEachField() returns (fs: seq<Field>)
      ensures fs == Fields(headerData)
    {
      hide Lines, FinalBlock, FieldsOf, FieldOf;
      var s := headerData;
      var pos := FinalStart();
      ghost var start := pos;
      fs := [];
      while pos < |s|
        invariant start <= pos <= |s|
        invariant fs + FieldsOf(Lines(s[pos..])) == FieldsOf(Lines(s[start..]))
      {
        var nl := FindFrom(s, '\n', pos);
        var end := if nl.None? then |s| else nl.value;
        var line := s[pos..end];
        LinesStep(s, pos, nl);
        pos := if nl.None? then |s| else end + 1;
        var field := ReadField(line);
        if field.Some? {
          fs := fs + [field.value];
        }
      }
      assert s[pos..] == "";
      NoLines();
    }

    /** Where the final response begins. */
    method FinalStart() returns (pos: nat)
      ensures pos <= |headerData| && FinalBlock(Lines(headerData)) == Lines(headerData[pos..])
    {
      hide Lines, FinalBlock;
      var lastStatus := RFind(headerData, "\n" + STATUS);
      LastStatusStartsBlock(headerData, lastStatus);
      assert headerData[0..] == headerData;
      pos := if lastStatus.None? then 0 else lastStatus.value + 1;
    }

    lemma NoLines()
      ensures FieldsOf(Lines("")) == []
    {
    }

    /** One line without its carriage return; None when it has no colon. */
    method ReadField(text: string) returns (r: Option<Field>)
      ensures r == FieldOf(text)
    {
      var line := text;
      if line != "" && line[|line| - 1] == '\r' {
        line := line[..|line| - 1];
      }
      var colon := FindFrom(line, ':', 0);
      assert line[0..] == line;
      if colon.None? {
        return None;
      }
      var name := TrimView(line[..colon.value]);
      var value := TrimView(line[colon.value + 1..]);
      return Some(Field(name, value));
    }

    lemma LinesStep(s: string, pos: nat, nl: Option<nat>)
      requires pos < |s| && nl == match HeaderSpec.Find(s[pos..], '\n') case None => None case Some(i) => Some(pos + i)
      ensures var end := if nl.None? then |s| else nl.value;
        var next := if nl.None? then |s| else end + 1;
        && pos <= end <= next <= |s|
        && var f := FieldOf(s[pos..end]);
        FieldsOf(Lines(s[pos..])) == AsList(f) + FieldsOf(Lines(s[next..]))
    {
      hide FieldOf, AsList, FieldsOf, Lines, HeaderSpec.Find;
      LinesSplit(s[pos..]);
      if nl.None? {
        assert s[|s|..] == "" && s[pos..|s|] == s[pos..];
        FieldsCons(s[pos..], Lines(""));
      } else {
        assert s[pos..][..nl.value - pos] == s[pos..nl.value];
        assert s[pos..][nl.value - pos + 1..] == s[nl.value + 1..];
        FieldsCons(s[pos..nl.value], Lines(s[nl.value + 1..]));
      }
    }

    lemma FieldsCons(line: string, rest: seq<string>)
      ensures FieldsOf([line] + rest) == AsList(FieldOf(line)) + FieldsOf(rest)
    {
      hide FieldOf, AsList;
      assert ([line] + rest)[1..] == rest;
    }

    lemma LinesSplit(t: string)
      requires t != ""
      ensures match HeaderSpec.Find(t, '\n')
              case None => Lines(t) == [t] + Lines("")
              case Some(i) => Lines(t) == [t[..i]] + Lines(t[i + 1..])
    {
    }

    lemma NothingYet()
      ensures forall name :: Combined([], name) == None && !FirstSpelling([], name)
    {
    }

    /** headers(): whatever the number of buckets, the map says for each name what the fields say. */
    method Headers(bucketCount: nat) returns (out: CiMap)
      requires bucketCount > 0
      ensures fresh(out) && Placed(out.buckets)
      ensures forall name :: out.Lookup(name) == Combined(Fields(headerData), name)
      ensures forall n :: HasKey(out.buckets, n) <==> FirstSpelling(Fields(headerData), n)
    {
      hide HasKey, Merge, Placed, Combined, Fields;
      out := new CiMap(bucketCount);
      var fs := ForEachField();
      NothingYet();
      for i := 0 to |fs|
        invariant Placed(out.buckets) && fresh(out)
        invariant forall name :: out.Lookup(name) == Combined(fs[..i], name)
        invariant forall n :: HasKey(out.buckets, n) <==> FirstSpelling(fs[..i], n)
      {
        out.Add(fs[i]);
        assert fs[..i + 1] == fs[..i] + [fs[i]];
        forall name ensures Combined(fs[..i + 1], name) == Merge(Combined(fs[..i], name), fs[i], name) {
          CombinedNext(fs[..i], fs[i], name);
        }
        forall n ensures FirstSpelling(fs[..i + 1], n)
                         <==> FirstSpelling(fs[..i], n) || (fs[i].name == n && Combined(fs[..i], n) == None) {
          FirstSpellingNext(fs[..i], fs[i], n);
        }
      }
      assert fs[..|fs|] == fs;
    }

    /** header(name), without building the map. */
    method Header(name: string) returns (found: Option<string>)
      ensures found == Combined(Fields(headerData), name)
    {
      found := None;
      var fs := ForEachField();
      for i := 0 to |fs|
        invariant found == Combined(fs[..i], name)
      {
        assert fs[..i + 1] == fs[..i] + [fs[i]];
        CombinedNext(fs[..i], fs[i], name);
        var same := EqualNames(fs[i].name, name);
        if same {
          if found.Some? {
            found := Some(found.value + ", " + fs[i].value);
          } else {
            found := Some(fs[i].value);
          }
        }
      }
      assert fs[..|fs|] == fs;
    }

    /** The two readers agree, on every raw header and every spelling of every name. */
    method ReadersAgree(name: string, bucketCount: nat) returns (one: Option<string>, other: Option<string>)
      requires bucketCount > 0
      ensures one == other == Combined(Fields(headerData), name)
    {
      one := Header(name);
      var out := Headers(bucketCount);
      other := out.Find(name);
    }
  }
}
