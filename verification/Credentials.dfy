/** core/credentials.go: the hand-written key=value file format and the store above it. A character below 256
    stands for one byte of a Go string. */
module Credentials {
  import opened Wrappers
  import opened Ordering

  // ---------- The string helpers ----------

  /** Go's `string(b)`: a byte from 128 up becomes the two bytes of its UTF-8 encoding. */
  function Rune(c: char): string {
    if c as int < 128 then [c] else [(0xC0 + c as int / 64) as char, (0x80 + c as int % 64) as char]
  }

  function Replaced(s: string, from: string, into: string): string
    requires from != ""
  {
    if s == "" then ""
    else if |from| <= |s| && s[..|from|] == from then into + Replaced(s[|from|..], from, into)
    else Rune(s[0]) + Replaced(s[1..], from, into)
  }

  lemma {:induction false} ReplaceStep(s: string, i: nat, from: string, into: string)
    requires i < |s| && from != ""
    ensures Replaced(s[i..], from, into)
         == if i + |from| <= |s| && s[i..i + |from|] == from then into + Replaced(s[i + |from|..], from, into)
            else Rune(s[i]) + Replaced(s[i + 1..], from, into)
  {
    assert s[i..][1..] == s[i + 1..];
    if i + |from| <= |s| {
      assert s[i..][..|from|] == s[i..i + |from|] && s[i..][|from|..] == s[i + |from|..];
    }
  }

  method ReplaceAll(s: string, from: string, into: string) returns (result: string)
    requires from != ""
    ensures result == Replaced(s, from, into)
  {
    hide Rune;
    result := "";
    var i := 0;
    assert s[0..] == s && s[|s|..] == "" && Replaced("", from, into) == "";
    hide Replaced;
    while i < |s|
      invariant 0 <= i <= |s|
      invariant result + Replaced(s[i..], from, into) == Replaced(s, from, into)
      decreases |s| - i
    {
      var piece;
      piece, i := ReplaceAt(s, i, from, into);
      result := result + piece;
    }
  }

  /** What the text at `i` becomes, and where to go on. */
  method ReplaceAt(s: string, i: nat, from: string, into: string) returns (piece: string, next: nat)
    requires i < |s| && from != ""
    ensures i < next <= |s| && Replaced(s[i..], from, into) == piece + Replaced(s[next..], from, into)
  {
    ReplaceStep(s, i, from, into);
    if i + |from| <= |s| && s[i..i + |from|] == from {
      return into, i + |from|;
    }
    return Rune(s[i]), i + 1;
  }

  predicate IsBlank(c: char) {
    c == ' ' || c == '\t' || c == '\r'
  }

  function Trimmed(s: string): string {
    TrimRight(TrimLeft(s, IsBlank), IsBlank)
  }

  method TrimSpace(s: string) returns (t: string)
    ensures t == Trimmed(s)
  {
    var start, end := 0, |s|;
    while start < end && IsBlank(s[start])
      invariant 0 <= start <= end
      invariant TrimLeft(s[start..], IsBlank) == TrimLeft(s, IsBlank)
    {
      assert s[start..][1..] == s[start + 1..];
      start := start + 1;
    }
    assert TrimLeft(s, IsBlank) == s[start..] == s[start..end];
    t := TrimEnd(s, start);
  }

  method TrimEnd(s: string, start: nat) returns (t: string)
    requires start <= |s|
    ensures t == TrimRight(s[start..], IsBlank)
  {
    var end := |s|;
    assert s[start..] == s[start..end];
    while end > start && IsBlank(s[end - 1])
      invariant start <= end <= |s|
      invariant TrimRight(s[start..end], IsBlank) == TrimRight(s[start..], IsBlank)
    {
      assert s[start..end][end - start - 1] == s[end - 1];
      assert s[start..end][..end - start - 1] == s[start..end - 1];
      end := end - 1;
    }
    t := s[start..end];
  }

  /** The lines of a text; a last line without a newline counts only when it is not empty. */
  function Lines(s: string): seq<string> {
    if s == "" then []
    else
      var n := FirstOf(s, '\n');
      if n < |s| then [s[..n]] + Lines(s[n + 1..]) else [s]
  }

  /** Where `c` first stands; the length when it does not. */
  function FirstOf(s: string, c: char): (n: nat)
    ensures n <= |s|
    ensures n < |s| ==> s[n] == c
    ensures forall k | 0 <= k < n :: s[k] != c
  {
    if s == "" || s[0] == c then 0 else 1 + FirstOf(s[1..], c)
  }

  lemma {:induction false} FirstOfIs(s: string, c: char, n: nat)
    requires n <= |s| && (n < |s| ==> s[n] == c) && forall k | 0 <= k < n :: s[k] != c
    ensures FirstOf(s, c) == n
  {
  }

  lemma {:induction false} FirstLineEnds(s: string, n: nat)
    requires n < |s| && s[n] == '\n' && forall k | 0 <= k < n :: s[k] != '\n'
    ensures Lines(s) == [s[..n]] + Lines(s[n + 1..])
  {
    FirstOfIs(s, '\n', n);
  }

  // The slices of a tail are slices of the whole.
  lemma {:induction false} TailSlices(s: string, start: nat, n: nat)
    requires start + n < |s|
    ensures s[start..][..n] == s[start..start + n] && s[start..][n + 1..] == s[start + n + 1..]
  {
  }

  lemma {:induction false} LineEnds(s: string, start: nat, i: nat)
    requires start <= i < |s| && s[i] == '\n' && forall k | start <= k < i :: s[k] != '\n'
    ensures Lines(s[start..]) == [s[start..i]] + Lines(s[i + 1..])
  {
    hide *;
    FirstLineEnds(s[start..], i - start);
    TailSlices(s, start, i - start);
  }

  lemma {:induction false} LastLine(s: string)
    requires forall k | 0 <= k < |s| :: s[k] != '\n'
    ensures Lines(s) == if s == "" then [] else [s]
  {
    FirstOfIs(s, '\n', |s|);
  }

  method SplitLines(s: string) returns (lines: seq<string>)
    ensures lines == Lines(s)
  {
    hide Lines;
    lines := [];
    var start := 0;
    for i := 0 to |s|
      invariant 0 <= start <= i
      invariant forall k | start <= k < i :: s[k] != '\n'
      invariant lines + Lines(s[start..]) == Lines(s)
    {
      if s[i] == '\n' {
        LineEnds(s, start, i);
        lines := lines + [s[start..i]];
        start := i + 1;
      }
    }
    LastLine(s[start..]);
    if start < |s| {
      lines := lines + [s[start..]];
    }
  }

  method IndexByte(s: string, b: char) returns (i: int)
    ensures i == if FirstOf(s, b) < |s| then FirstOf(s, b) else -1
  {
    for k := 0 to |s|
      invariant forall j | 0 <= j < k :: s[j] != b
    {
      if s[k] == b {
        FirstOfIs(s, b, k);
        return k;
      }
    }
    FirstOfIs(s, b, |s|);
    return -1;
  }

  // ---------- The file format ----------

  type Creds = map<string, string>

  function Escaped(v: string): string {
    Replaced(Replaced(v, "\n", "\\n"), "\r", "\\r")
  }

  function Unescaped(x: string): string {
    Replaced(Replaced(x, "\\n", "\n"), "\\r", "\r")
  }

  function PrintedLine(k: string, v: string): string {
    k + "=" + Escaped(v)
  }

  function Printed(creds: Creds, keys: seq<string>): string
    requires forall i | 0 <= i < |keys| :: keys[i] in creds
  {
    if keys == [] then "" else PrintedLine(keys[0], creds[keys[0]]) + "\n" + Printed(creds, keys[1..])
  }

  /** What one line contributes: nothing for blanks, comments and lines without '='. */
  function ParsedLine(line: string): Option<(string, string)> {
    var l := Trimmed(line);
    if l == "" || l[0] == '#' || FirstOf(l, '=') == |l| then None
    else
      var eq := FirstOf(l, '=');
      Some((Trimmed(l[..eq]), Unescaped(Trimmed(l[eq + 1..]))))
  }

  function Absorbed(creds: Creds, line: string): Creds {
    match ParsedLine(line)
    case None => creds
    case Some((k, v)) => creds[k := v]
  }

  function LoadedLines(lines: seq<string>): Creds {
    if lines == [] then map[] else Absorbed(LoadedLines(lines[..|lines| - 1]), lines[|lines| - 1])
  }

  function Loaded(data: string): Creds {
    LoadedLines(Lines(data))
  }

  /** `keys` enumerates the credentials once each. */
  ghost predicate Lists(keys: seq<string>, creds: Creds) {
    NoRepeats(keys) && forall k :: k in keys <==> k in creds
  }

  method Load(data: string) returns (creds: Creds)
    ensures creds == Loaded(data)
  {
    creds := map[];
    var lines := SplitLines(data);
    for i := 0 to |lines|
      invariant creds == LoadedLines(lines[..i])
    {
      assert lines[..i + 1][..i] == lines[..i];
      hide ParsedLine;
      var entry := ParseLine(lines[i]);
      if entry.None? {
        continue;
      }
      creds := creds[entry.value.0 := entry.value.1];
    }
    assert lines[..|lines|] == lines;
  }

  method ParseLine(text: string) returns (entry: Option<(string, string)>)
    ensures entry == ParsedLine(text)
  {
    hide Trimmed, Replaced;
    var line := TrimSpace(text);
    if line == "" || line[0] == '#' {
      return None;
    }
    var eq := IndexByte(line, '=');
    if eq < 0 {
      return None;
    }
    var key := TrimSpace(line[..eq]);
    var value := TrimSpace(line[eq + 1..]);
    value := ReplaceAll(value, "\\n", "\n");
    value := ReplaceAll(value, "\\r", "\r");
    return Some((key, value));
  }

  method SortedKeys(creds: Creds) returns (order: array<string>)
    ensures fresh(order) && Lists(order[..], creds) && Sorted(order[..])
  {
    var listed := ListKeys(creds);
    order := new string[|listed|](i requires 0 <= i < |listed| => listed[i]);
    assert order[..] == listed;
    InsertionSort(order);
    SameListing(multiset(listed), listed, order[..]);
  }

  /** Prints the credentials in key order, whatever order the map hands its keys out in. */
  method Print(creds: Creds) returns (data: string, keys: seq<string>)
    ensures Lists(keys, creds) && Sorted(keys) && data == Printed(creds, keys)
  {
    var order := SortedKeys(creds);
    keys := order[..];
    data := PrintAll(creds, keys);
  }

  method PrintAll(creds: Creds, keys: seq<string>) returns (data: string)
    requires Lists(keys, creds)
    ensures data == Printed(creds, keys)
  {
    data := "";
    for i := 0 to |keys|
      invariant data + Printed(creds, keys[i..]) == Printed(creds, keys)
    {
      PrintStep(creds, keys, i, data);
      var line := PrintLine(keys[i], creds[keys[i]]);
      data := data + line;
    }
  }

  method PrintLine(k: string, value: string) returns (line: string)
    ensures line == PrintedLine(k, value) + "\n"
  {
    var v := ReplaceAll(value, "\n", "\\n");
    v := ReplaceAll(v, "\r", "\\r");
    line := k + "=" + v + "\n";
  }

  lemma {:induction false} PrintStep(creds: Creds, keys: seq<string>, i: nat, data: string)
    requires i < |keys| && Lists(keys, creds)
    ensures keys[i] in creds
    ensures data + Printed(creds, keys[i..])
         == (data + (PrintedLine(keys[i], creds[keys[i]]) + "\n")) + Printed(creds, keys[i + 1..])
  {
    assert keys[i] in keys && keys[i..][1..] == keys[i + 1..];
  }

  /** A map's keys in no particular order. */
  method ListKeys(creds: Creds) returns (listed: seq<string>)
    ensures Lists(listed, creds)
  {
    listed := [];
    var rest := creds.Keys;
    while rest != {}
      invariant rest <= creds.Keys && NoRepeats(listed)
      invariant forall k :: k in listed <==> k in creds.Keys - rest
      decreases |rest|
    {
      var k :| k in rest;
      assert k !in listed;
      assert forall i | 0 <= i < |listed| :: listed[i] in listed;
      listed := listed + [k];
      rest := rest - {k};
    }
  }

  /** The bytes of the file do not depend on the order the map was enumerated in. */
  lemma {:induction false} PrintIsDeterministic(creds: Creds, keys1: seq<string>, keys2: seq<string>)
    requires Lists(keys1, creds) && Sorted(keys1) && Lists(keys2, creds) && Sorted(keys2)
    ensures keys1 == keys2 && Printed(creds, keys1) == Printed(creds, keys2)
  {
    SortedIsUnique(keys1, keys2);
  }

  // ---------- The store ----------

  /** `-` becomes `_` and ASCII letters become capitals. */
  function EnvKey(plugin: string, key: string): string {
    Upper(Replaced(plugin + "_" + key, "-", "_"))
  }

  function Upper(s: string): string {
    seq(|s|, i requires 0 <= i < |s| => if 'a' <= s[i] <= 'z' then (s[i] as int - 32) as char else s[i])
  }

  /** The bytes `saveToFile` writes, whatever order it met the keys in. */
  ghost predicate IsFileOf(data: string, creds: Creds) {
    exists keys :: Lists(keys, creds) && Sorted(keys) && data == Printed(creds, keys)
  }

  /** The credential store; `files` is the content of the credential directory by plugin name. */
  class CredentialStore {
    var cache: map<string, Creds>
    var files: map<string, string>
    const env: map<string, string>

    constructor (files: map<string, string>, env: map<string, string>)
      ensures this.files == files && this.env == env && cache == map[]
    {
      this.files, this.env, cache := files, env, map[];
    }

    method SaveToFile(plugin: string)
      modifies this`files
      ensures files.Keys == old(files).Keys + {plugin}
      ensures IsFileOf(files[plugin], if plugin in cache then cache[plugin] else map[])
      ensures forall p | p in old(files) && p != plugin :: files[p] == old(files)[p]
    {
      var data, keys := Print(if plugin in cache then cache[plugin] else map[]);
      files := files[plugin := data];
    }

    /** Cache first, then the file, then a non-empty variable of the process. */
    method Get(plugin: string, key: string) returns (value: Option<string>)
      modifies this`cache
      ensures plugin in old(cache) && key in old(cache)[plugin] ==>
                value == Some(old(cache)[plugin][key]) && cache == old(cache)
      ensures !(plugin in old(cache) && key in old(cache)[plugin]) && plugin in files ==>
                && cache == old(cache)[plugin := Loaded(files[plugin])]
                && (key in Loaded(files[plugin]) ==> value == Some(Loaded(files[plugin])[key]))
      ensures plugin !in files ==> cache == old(cache)
      ensures !(plugin in cache && key in cache[plugin]) ==>
                value == if EnvKey(plugin, key) in env && env[EnvKey(plugin, key)] != ""
                         then Some(env[EnvKey(plugin, key)]) else None
    {
      if plugin in cache && key in cache[plugin] {
        return Some(cache[plugin][key]);
      }
      if plugin in files {
        var creds := Load(files[plugin]);
        cache := cache[plugin := creds];
        if key in creds {
          return Some(creds[key]);
        }
      }
      var name := EnvKey(plugin, key);
      return if name in env && env[name] != "" then Some(env[name]) else None;
    }

    /** Sets one credential; a plugin not in the cache starts from nothing, whatever its file holds. */
    method Set(plugin: string, key: string, value: string)
      modifies this`cache, this`files
      ensures cache == old(cache)[plugin := (if plugin in old(cache) then old(cache)[plugin] else map[])[key := value]]
      ensures files.Keys == old(files).Keys + {plugin} && IsFileOf(files[plugin], cache[plugin])
      ensures forall p | p in old(files) && p != plugin :: files[p] == old(files)[p]
    {
      if plugin !in cache {
        cache := cache[plugin := map[]];
      }
      cache := cache[plugin := cache[plugin][key := value]];
      SaveToFile(plugin);
    }

    /** Deletes one credential; a plugin not in the cache is read from its file first. */
    method Delete(plugin: string, key: string)
      modifies this`cache, this`files
      ensures forall p | p in old(files) && p != plugin :: p in files && files[p] == old(files)[p]
      ensures plugin !in old(cache) && plugin !in old(files) ==> cache == old(cache) && files == old(files)
      ensures plugin in old(cache) || plugin in old(files) ==>
                var before := if plugin in old(cache) then old(cache)[plugin] else Loaded(old(files)[plugin]);
                && cache == old(cache)[plugin := before - {key}]
                && (key in before ==> plugin in files && IsFileOf(files[plugin], before - {key}))
                && (key !in before ==> files == old(files))
    {
      if plugin !in cache {
        if plugin !in files {
          return;
        }
        var creds := Load(files[plugin]);
        cache := cache[plugin := creds];
      }
      if key !in cache[plugin] {
        assert cache[plugin] - {key} == cache[plugin];
        return;
      }
      cache := cache[plugin := cache[plugin] - {key}];
      SaveToFile(plugin);
    }
  }
}
