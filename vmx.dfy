/**
 * The hypervisor's `.vmx` text format: one `key = "value"` entry per line.
 * Reading keeps only lines with exactly one `=`, trims and lower-cases the
 * key, trims the value and strips its quotes; a later line with the same key
 * wins. Writing emits one line per entry in ascending key order.
 */
module Vmx {
  import opened Wrappers
  import opened GoStrings

  type VmxMap = map<string, string>

  // ---------------------------------------------------------------------------
  // Reading

  /** The entry one line contributes, if it splits into exactly two parts on `=`. */
  function ParseLine(line: string): Option<(string, string)>
  {
    var values := Split(line, '=');
    if |values| != 2 then None
    else Some((ToLower(TrimSpace(values[0])), Trim(TrimSpace(values[1]), '"')))
  }

  function Store(vmx: VmxMap, entry: Option<(string, string)>): VmxMap
  {
    match entry
    case None => vmx
    case Some((k, v)) => vmx[k := v]
  }

  /** Folds the lines, left to right, into `vmx`. */
  function ParseFrom(vmx: VmxMap, lines: seq<string>): VmxMap
    decreases |lines|
  {
    if |lines| == 0 then vmx else ParseFrom(Store(vmx, ParseLine(lines[0])), lines[1..])
  }

  /** The map `readVMXFile` builds from a file's text. */
  function Parse(text: string): VmxMap
  {
    ParseFrom(map[], Split(text, '\n'))
  }

  /** `readVMXFile` after the file has been read: the loop over the lines. */
  method ReadVmx(text: string) returns (vmx: VmxMap)
    ensures vmx == Parse(text)
  {
    vmx := map[];
    var lines := Split(text, '\n');
    var i := 0;
    while i < |lines|
      invariant 0 <= i <= |lines|
      invariant ParseFrom(vmx, lines[i..]) == Parse(text)
    {
      assert lines[i..][1..] == lines[i + 1..];
      var values := Split(lines[i], '=');
      if |values| == 2 {
        var k := TrimSpace(values[0]);
        var v := TrimSpace(values[1]);
        vmx := vmx[ToLower(k) := Trim(v, '"')];
      }
      i := i + 1;
    }
  }

  /** A line produces an entry exactly when it holds one `=`. */
  lemma ParseLineIff(line: string)
    ensures ParseLine(line).Some? <==> Count(line, '=') == 1
  {
    SplitCount(line, '=');
  }

  predicate Defines(line: string, k: string)
  {
    ParseLine(line).Some? && ParseLine(line).value.0 == k
  }

  /** A key is present after reading exactly when some line defines it (or it was there before). */
  lemma {:induction false} ParseFromKeys(acc: VmxMap, lines: seq<string>, k: string)
    ensures k in ParseFrom(acc, lines) <==>
            k in acc || exists j :: 0 <= j < |lines| && Defines(lines[j], k)
    decreases |lines|
  {
    if |lines| > 0 {
      var acc' := Store(acc, ParseLine(lines[0]));
      var rest := lines[1..];
      assert ParseFrom(acc, lines) == ParseFrom(acc', rest);
      assert k in acc' <==> k in acc || Defines(lines[0], k);
      ParseFromKeys(acc', rest, k);
      if exists j :: 0 <= j < |lines| && Defines(lines[j], k) {
        var j :| 0 <= j < |lines| && Defines(lines[j], k);
        if j > 0 { assert rest[j - 1] == lines[j]; }
      }
      if exists j :: 0 <= j < |rest| && Defines(rest[j], k) {
        var j :| 0 <= j < |rest| && Defines(rest[j], k);
        assert rest[j] == lines[j + 1];
      }
    }
  }

  /** Lines that do not define `k` leave its entry as it was. */
  lemma {:induction false} ParseFromUntouched(acc: VmxMap, lines: seq<string>, k: string)
    requires forall j :: 0 <= j < |lines| ==> !Defines(lines[j], k)
    ensures k in acc ==> k in ParseFrom(acc, lines) && ParseFrom(acc, lines)[k] == acc[k]
    decreases |lines|
  {
    if |lines| > 0 {
      assert !Defines(lines[0], k);
      var acc' := Store(acc, ParseLine(lines[0]));
      assert k in acc ==> k in acc' && acc'[k] == acc[k];
      ParseFromUntouched(acc', lines[1..], k);
    }
  }

  /** When several lines define the same key, the last one's value is kept. */
  lemma {:induction false} ParseFromLastWins(acc: VmxMap, lines: seq<string>, i: nat, k: string, v: string)
    requires i < |lines| && ParseLine(lines[i]) == Some((k, v))
    requires forall j :: i < j < |lines| ==> !Defines(lines[j], k)
    ensures k in ParseFrom(acc, lines) && ParseFrom(acc, lines)[k] == v
    decreases i
  {
    var acc' := Store(acc, ParseLine(lines[0]));
    var rest := lines[1..];
    assert ParseFrom(acc, lines) == ParseFrom(acc', rest);
    if i == 0 {
      assert k in acc' && acc'[k] == v;
      forall j | 0 <= j < |rest| ensures !Defines(rest[j], k) {
        assert rest[j] == lines[j + 1];
      }
      ParseFromUntouched(acc', rest, k);
    } else {
      assert rest[i - 1] == lines[i];
      forall j | i - 1 < j < |rest| ensures !Defines(rest[j], k) {
        assert rest[j] == lines[j + 1];
      }
      ParseFromLastWins(acc', rest, i - 1, k, v);
    }
  }

  /** Reading a file: present keys are those some line defines; the last such line gives the value. */
  lemma ParseKey(text: string, k: string, i: nat)
    requires i < |Split(text, '\n')| && Defines(Split(text, '\n')[i], k)
    requires forall j :: i < j < |Split(text, '\n')| ==> !Defines(Split(text, '\n')[j], k)
    ensures k in Parse(text) && Parse(text)[k] == ParseLine(Split(text, '\n')[i]).value.1
  {
    var lines := Split(text, '\n');
    ParseFromLastWins(map[], lines, i, k, ParseLine(lines[i]).value.1);
  }

  lemma ParseMissingKey(text: string, k: string)
    requires forall j :: 0 <= j < |Split(text, '\n')| ==> !Defines(Split(text, '\n')[j], k)
    ensures k !in Parse(text)
  {
    ParseFromKeys(map[], Split(text, '\n'), k);
  }

  // ---------------------------------------------------------------------------
  // Which keys and values survive a write and a read

  /** Lower-case, trimmed, and free of `=` and line breaks. */
  predicate GoodKey(k: string)
  {
    '=' !in k && '\n' !in k
    && (forall i :: 0 <= i < |k| ==> !('A' <= k[i] <= 'Z'))
    && (|k| > 0 ==> !IsSpace(k[0]) && !IsSpace(k[|k| - 1]))
  }

  /** A good key is its own lower-cased, trimmed form. */
  lemma GoodKeyNormal(k: string)
    requires GoodKey(k)
    ensures ToLower(k) == k && TrimSpace(k) == k
  {
    TrimSpaceUnchanged(k);
    assert forall i :: 0 <= i < |k| ==> ToLower(k)[i] == k[i];
  }

  /** Free of `=` and line breaks, and not starting or ending with a quote. */
  predicate GoodValue(v: string)
  {
    '=' !in v && '\n' !in v && (|v| > 0 ==> v[0] != '"' && v[|v| - 1] != '"')
  }

  ghost predicate Good(vmx: VmxMap)
  {
    forall k :: k in vmx ==> GoodKey(k) && GoodValue(vmx[k])
  }

  /** Every entry a line produces is a good key with a good value. */
  lemma ParseLineGood(line: string)
    requires '\n' !in line
    ensures ParseLine(line).Some? ==> GoodKey(ParseLine(line).value.0) && GoodValue(ParseLine(line).value.1)
  {
    var values := Split(line, '=');
    if |values| == 2 {
      SplitJoin(line, '=');
      assert line == values[0] + ['='] + values[1];
      assert '\n' !in values[0] && '\n' !in values[1];
      KeyGood(values[0]);
      ValueGood(values[1]);
    }
  }

  lemma KeyGood(p: string)
    requires '=' !in p && '\n' !in p
    ensures GoodKey(ToLower(TrimSpace(p)))
  {
    var t := TrimSpace(p);
    ToLowerKeepsLayout(t);
    var k := ToLower(t);
    forall i | 0 <= i < |k| ensures !('A' <= k[i] <= 'Z') {
      assert k[i] == ToLowerChar(t[i]);
    }
  }

  lemma ValueGood(p: string)
    requires '=' !in p && '\n' !in p
    ensures GoodValue(Trim(TrimSpace(p), '"'))
  {
  }

  lemma StoreGood(acc: VmxMap, e: Option<(string, string)>)
    requires Good(acc)
    requires e.Some? ==> GoodKey(e.value.0) && GoodValue(e.value.1)
    ensures Good(Store(acc, e))
  {
  }

  lemma {:induction false} ParseFromGood(acc: VmxMap, lines: seq<string>)
    requires Good(acc)
    requires forall j :: 0 <= j < |lines| ==> '\n' !in lines[j]
    ensures Good(ParseFrom(acc, lines))
    decreases |lines|
  {
    if |lines| > 0 {
      ParseLineGood(lines[0]);
      StoreGood(acc, ParseLine(lines[0]));
      ParseFromGood(Store(acc, ParseLine(lines[0])), lines[1..]);
    }
  }

  /** Whatever text was read, the resulting map has only good keys and good values. */
  lemma ParseGood(text: string)
    ensures Good(Parse(text))
  {
    ParseFromGood(map[], Split(text, '\n'));
  }

  // ---------------------------------------------------------------------------
  // Writing

  /** The text written for one entry, without its line break. */
  function Line(k: string, v: string): string
  {
    k + " = " + "\"" + v + "\""
  }

  /** The entries of `keys`, in that order, each on its own line. */
  function Entries(keys: seq<string>, vmx: VmxMap): string
    requires forall i :: 0 <= i < |keys| ==> keys[i] in vmx
  {
    if |keys| == 0 then "" else Line(keys[0], vmx[keys[0]]) + "\n" + Entries(keys[1..], vmx)
  }

  lemma {:induction false} MinExists(s: set<string>)
    requires s != {}
    ensures exists x :: x in s && forall y :: y in s ==> LessEq(x, y)
  {
    var z :| z in s;
    if s == {z} {
      assert forall y :: y in s ==> y == z;
    } else {
      var rest := s - {z};
      MinExists(rest);
      var m :| m in rest && forall y :: y in rest ==> LessEq(m, y);
      MinOfInsert(z, m, rest, s);
    }
  }

  /** Adding `z` to a set whose least element is `m` makes the lesser of the two the least. */
  lemma MinOfInsert(z: string, m: string, rest: set<string>, s: set<string>)
    requires s == rest + {z} && m in rest
    requires forall y :: y in rest ==> LessEq(m, y)
    ensures exists x :: x in s && forall y :: y in s ==> LessEq(x, y)
  {
    LessTotal(z, m);
    if Less(z, m) {
      forall y | y in s ensures LessEq(z, y) {
        if y != z { assert LessEq(m, y); if m != y { LessTransitive(z, m, y); } }
      }
      assert z in s;
    } else {
      assert forall y :: y in s ==> LessEq(m, y);
      assert m in s;
    }
  }

  lemma PrependMinimum(x: string, rest: seq<string>, s: set<string>)
    requires StrictlySorted(rest)
    requires forall k :: k in rest <==> k in s && k != x
    requires forall y :: y in s ==> LessEq(x, y)
    ensures StrictlySorted([x] + rest)
  {
    forall j | 0 <= j < |rest| ensures Less(x, rest[j]) {
      assert rest[j] in rest;
    }
  }

  /** The keys of the set in ascending order. */
  ghost function SortedKeys(s: set<string>): (r: seq<string>)
    ensures StrictlySorted(r)
    ensures forall k :: k in r <==> k in s
    decreases s
  {
    if s == {} then []
    else
      MinExists(s);
      var x :| x in s && forall y :: y in s ==> LessEq(x, y);
      var rest := SortedKeys(s - {x});
      PrependMinimum(x, rest, s);
      [x] + rest
  }

  /** The text `writeVMXFile` produces for a map. */
  ghost function Render(vmx: VmxMap): string
  {
    Entries(SortedKeys(vmx.Keys), vmx)
  }

  lemma EntriesStep(keys: seq<string>, j: nat, vmx: VmxMap)
    requires j < |keys|
    requires forall i :: 0 <= i < |keys| ==> keys[i] in vmx
    ensures Entries(keys[j..], vmx) == Line(keys[j], vmx[keys[j]]) + "\n" + Entries(keys[j + 1..], vmx)
  {
    assert keys[j..][1..] == keys[j + 1..];
  }

  /** The key-collecting loop of `writeVMXFile`: every key once, in the map's iteration order. */
  method CollectKeys(vmx: VmxMap) returns (keys: seq<string>)
    ensures Distinct(keys)
    ensures forall q :: q in keys <==> q in vmx
  {
    keys := [];
    var pending := vmx.Keys;
    while pending != {}
      invariant pending <= vmx.Keys
      invariant forall q :: q in keys ==> q in vmx && q !in pending
      invariant forall q :: q in vmx ==> q in pending || q in keys
      invariant Distinct(keys)
      decreases |pending|
    {
      var k :| k in pending;
      keys := keys + [k];
      pending := pending - {k};
    }
  }

  /** The buffer-filling loop of `writeVMXFile`. */
  method EmitEntries(keys: seq<string>, vmx: VmxMap) returns (text: string)
    requires forall i :: 0 <= i < |keys| ==> keys[i] in vmx
    ensures text == Entries(keys, vmx)
  {
    text := "";
    var j := 0;
    while j < |keys|
      invariant 0 <= j <= |keys|
      invariant text + Entries(keys[j..], vmx) == Entries(keys, vmx)
    {
      EntriesStep(keys, j, vmx);
      text := text + (Line(keys[j], vmx[keys[j]]) + "\n");
      j := j + 1;
    }
    assert keys[j..] == [];
  }

  /** `writeVMXFile` before the file is written: collect the keys, sort them, emit one line each. */
  method WriteVmx(vmx: VmxMap) returns (text: string)
    ensures text == Render(vmx)
  {
    var keys := CollectKeys(vmx);
    var sorted := SortStrings(keys);
    SortStringsStrictlySorted(keys);
    text := EmitEntries(sorted, vmx);
    RenderOrderIndependent(sorted, vmx);
  }

  /** The text does not depend on the order in which the keys were collected. */
  lemma RenderOrderIndependent(keys: seq<string>, vmx: VmxMap)
    requires StrictlySorted(keys)
    requires forall k :: k in keys <==> k in vmx
    ensures Entries(keys, vmx) == Render(vmx)
  {
    StrictlySortedUnique(keys, SortedKeys(vmx.Keys));
  }

  lemma RenderEmpty()
    ensures Render(map[]) == ""
  {
  }

  // ---------------------------------------------------------------------------
  // Writing, then reading

  lemma ParseLineOfTwo(line: string, a: string, b: string)
    requires Split(line, '=') == [a, b]
    ensures ParseLine(line) == Some((ToLower(TrimSpace(a)), Trim(TrimSpace(b), '"')))
  {
  }

  lemma LineShape(k: string, v: string)
    ensures Line(k, v) == (k + " ") + ['='] + ([' '] + (['"'] + v + ['"']))
  {
  }

  /** A written line whose value has no `=` reads back as its key and its unquoted value. */
  lemma ParseLineOfEntryKept(k: string, v: string)
    requires GoodKey(k) && '=' !in v
    ensures ParseLine(Line(k, v)) == Some((k, Trim(v, '"')))
  {
    var q := ['"'] + v + ['"'];
    SplitOfEntry(k, v);
    ParseLineOfTwo(Line(k, v), k + " ", [' '] + q);
    TrimmedKey(k);
    TrimmedValue(v);
  }

  lemma SplitOfEntry(k: string, v: string)
    requires GoodKey(k) && '=' !in v
    ensures Split(Line(k, v), '=') == [k + " ", [' '] + (['"'] + v + ['"'])]
  {
    var x := k + " ";
    var y := [' '] + (['"'] + v + ['"']);
    LineShape(k, v);
    SplitAround(x, y, '=');
    SplitWithoutSep(x, '=');
    SplitWithoutSep(y, '=');
  }

  lemma TrimmedKey(k: string)
    requires GoodKey(k)
    ensures ToLower(TrimSpace(k + " ")) == k
  {
    GoodKeyNormal(k);
    TrimSpaceDropsTrailing(k, ' ');
  }

  lemma TrimmedValue(v: string)
    ensures Trim(TrimSpace([' '] + (['"'] + v + ['"'])), '"') == Trim(v, '"')
  {
    TrimSpaceDropsLeading(['"'] + v + ['"'], ' ');
    TrimEnclosed(v, '"');
  }

  /** A written line whose value holds `=` is skipped on reading. */
  lemma ParseLineOfEntryLost(k: string, v: string)
    requires GoodKey(k) && '=' in v
    ensures ParseLine(Line(k, v)) == None
  {
    var x := k + " ";
    var q := ['"'] + v + ['"'];
    var y := [' '] + q;
    LineShape(k, v);
    SplitAround(x, y, '=');
    assert '=' in y;
    SplitCount(y, '=');
    CountZero(y, '=');
  }

  /** How one written line reads back: lost if the value holds `=`, quotes stripped otherwise. */
  lemma ParseLineOfEntry(k: string, v: string)
    requires GoodKey(k)
    ensures ParseLine(Line(k, v)) == if '=' in v then None else Some((k, Trim(v, '"')))
  {
    if '=' in v { ParseLineOfEntryLost(k, v); } else { ParseLineOfEntryKept(k, v); }
  }

  /** What reading keeps of the entries of `keys`. */
  function Kept(keys: seq<string>, vmx: VmxMap): VmxMap
  {
    map k | k in keys && k in vmx && '=' !in vmx[k] :: Trim(vmx[k], '"')
  }

  lemma EntriesLines(keys: seq<string>, vmx: VmxMap)
    requires |keys| > 0
    requires forall i :: 0 <= i < |keys| ==> keys[i] in vmx
    requires '\n' !in keys[0] && '\n' !in vmx[keys[0]]
    ensures Split(Entries(keys, vmx), '\n') ==
            [Line(keys[0], vmx[keys[0]])] + Split(Entries(keys[1..], vmx), '\n')
  {
    var line := Line(keys[0], vmx[keys[0]]);
    var rest := Entries(keys[1..], vmx);
    assert Entries(keys, vmx) == line + ['\n'] + rest;
    SplitAround(line, rest, '\n');
    assert '\n' !in line;
    SplitWithoutSep(line, '\n');
  }

  lemma KeptStep(keys: seq<string>, vmx: VmxMap)
    requires |keys| > 0 && keys[0] in vmx
    ensures Kept(keys, vmx) ==
            if '=' in vmx[keys[0]] then Kept(keys[1..], vmx)
            else Kept(keys[1..], vmx)[keys[0] := Trim(vmx[keys[0]], '"')]
  {
    assert forall k :: k in keys <==> k == keys[0] || k in keys[1..];
  }

  lemma UpdateThenUnion(acc: VmxMap, kept: VmxMap, k: string, t: string)
    requires k in kept ==> kept[k] == t
    ensures acc[k := t] + kept == acc + kept[k := t]
  {
  }

  lemma ParseFromStep(acc: VmxMap, lines: seq<string>, first: string, rest: seq<string>, e: Option<(string, string)>)
    requires lines == [first] + rest && ParseLine(first) == e
    ensures ParseFrom(acc, lines) == ParseFrom(Store(acc, e), rest)
  {
    assert lines[1..] == rest;
  }

  lemma {:induction false} ParseEntries(acc: VmxMap, keys: seq<string>, vmx: VmxMap)
    requires forall i :: 0 <= i < |keys| ==> keys[i] in vmx && GoodKey(keys[i]) && '\n' !in vmx[keys[i]]
    ensures ParseFrom(acc, Split(Entries(keys, vmx), '\n')) == acc + Kept(keys, vmx)
    decreases |keys|
  {
    if |keys| == 0 {
      assert Split("", '\n') == [""];
      assert Kept(keys, vmx) == map[];
    } else {
      var k := keys[0];
      var v := vmx[k];
      EntriesLines(keys, vmx);
      ParseLineOfEntry(k, v);
      var e: Option<(string, string)> := if '=' in v then None else Some((k, Trim(v, '"')));
      ParseFromStep(acc, Split(Entries(keys, vmx), '\n'), Line(k, v), Split(Entries(keys[1..], vmx), '\n'), e);
      ParseEntries(Store(acc, e), keys[1..], vmx);
      KeptStep(keys, vmx);
      if '=' !in v {
        UpdateThenUnion(acc, Kept(keys[1..], vmx), k, Trim(v, '"'));
      }
    }
  }

  /** Reading back a written map keeps exactly the entries without `=`, with their quotes stripped. */
  lemma RenderParse(vmx: VmxMap)
    requires forall k :: k in vmx ==> GoodKey(k) && '\n' !in vmx[k]
    ensures Parse(Render(vmx)) == map k | k in vmx && '=' !in vmx[k] :: Trim(vmx[k], '"')
  {
    var keys := SortedKeys(vmx.Keys);
    ParseEntries(map[], keys, vmx);
    KeptAll(keys, vmx);
    EmptyUnion(Kept(keys, vmx));
  }

  lemma KeptAll(keys: seq<string>, vmx: VmxMap)
    requires forall k :: k in keys <==> k in vmx
    ensures Kept(keys, vmx) == map k | k in vmx && '=' !in vmx[k] :: Trim(vmx[k], '"')
  {
  }

  lemma EmptyUnion(m: VmxMap)
    ensures map[] + m == m
  {
  }

  lemma GoodReadable(vmx: VmxMap)
    requires Good(vmx)
    ensures (map k | k in vmx && '=' !in vmx[k] :: Trim(vmx[k], '"')) == vmx
  {
    var r := map k | k in vmx && '=' !in vmx[k] :: Trim(vmx[k], '"');
    forall k | k in vmx ensures k in r && r[k] == vmx[k] {
      TrimUnchanged(vmx[k], '"');
    }
    assert r.Keys == vmx.Keys;
  }

  /** Round trip: a map of good keys and good values reads back as itself. */
  lemma RoundTrip(vmx: VmxMap)
    requires Good(vmx)
    ensures Parse(Render(vmx)) == vmx
  {
    RenderParse(vmx);
    GoodReadable(vmx);
  }

  /** A value holding `=` is written out but its key is gone on the next read. */
  lemma ValueWithEqualsLost(vmx: VmxMap, k: string)
    requires forall k' :: k' in vmx ==> GoodKey(k') && '\n' !in vmx[k']
    requires k in vmx && '=' in vmx[k]
    ensures k !in Parse(Render(vmx))
  {
    RenderParse(vmx);
  }

  /**
   * A well-formed map plus one entry whose value holds `=` reads back as the
   * well-formed map alone: exactly that entry is lost.
   */
  lemma LossyEntryDropped(vmx: VmxMap, k: string)
    requires Good(vmx - {k}) && GoodKey(k)
    requires k in vmx && '=' in vmx[k] && '\n' !in vmx[k]
    ensures Parse(Render(vmx)) == vmx - {k}
  {
    var b := vmx - {k};
    assert forall j :: j in vmx ==> GoodKey(j) && '\n' !in vmx[j] by {
      forall j | j in vmx ensures GoodKey(j) && '\n' !in vmx[j] {
        if j != k {
          assert j in b && b[j] == vmx[j];
        }
      }
    }
    RenderParse(vmx);
    GoodReadable(b);
    LossyComprehension(vmx, k);
  }

  lemma LossyComprehension(vmx: VmxMap, k: string)
    requires k in vmx && '=' in vmx[k]
    ensures (map j | j in vmx && '=' !in vmx[j] :: Trim(vmx[j], '"'))
         == (map j | j in vmx - {k} && '=' !in (vmx - {k})[j] :: Trim((vmx - {k})[j], '"'))
  {
  }

  /** Reading, writing and reading again gives what the first read gave. */
  lemma ReadWriteRead(text: string)
    ensures Parse(Render(Parse(text))) == Parse(text)
  {
    ParseGood(text);
    RoundTrip(Parse(text));
  }
}
