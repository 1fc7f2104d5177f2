/** The .env upsert and the line reader that must agree with it. */
module DotEnv {
  import opened Wrappers

  // ---------- Strings ----------

  predicate IsSpace(c: char) {
    var n := c as int;
    (9 <= n <= 13) || n == 32 || n == 0x85 || n == 0xA0 || n == 0x1680 || (0x2000 <= n <= 0x200A)
    || n == 0x2028 || n == 0x2029 || n == 0x202F || n == 0x205F || n == 0x3000
  }

  predicate IsQuote(c: char) { c == '"' || c == '\'' }

  function TrimLeft(s: string, drop: char -> bool): string {
    if s != [] && drop(s[0]) then TrimLeft(s[1..], drop) else s
  }

  function TrimRight(s: string, drop: char -> bool): string {
    if s != [] && drop(s[|s| - 1]) then TrimRight(s[..|s| - 1], drop) else s
  }

  function TrimSpace(s: string): string { TrimRight(TrimLeft(s, IsSpace), IsSpace) }

  function TrimQuotes(s: string): string { TrimRight(TrimLeft(s, IsQuote), IsQuote) }

  /** Position of the first '=', or the length. */
  function EqualsAt(s: string): (i: nat)
    ensures i <= |s| && (i < |s| ==> s[i] == '=')
  {
    if s == [] || s[0] == '=' then 0 else 1 + EqualsAt(s[1..])
  }

  /** Lines as strings.Split gives them: one more than there are newlines. */
  function Split(s: string): (lines: seq<string>)
    ensures lines != [] && forall i | 0 <= i < |lines| :: '\n' !in lines[i]
  {
    if s == [] then [[]]
    else
      var rest := Split(s[1..]);
      if s[0] == '\n' then [[]] + rest else [[s[0]] + rest[0]] + rest[1..]
  }

  function Join(lines: seq<string>): string
    requires lines != []
  {
    if |lines| == 1 then lines[0] else lines[0] + ['\n'] + Join(lines[1..])
  }

  lemma {:induction false} SplitJoin(lines: seq<string>)
    requires lines != [] && forall i | 0 <= i < |lines| :: '\n' !in lines[i]
    ensures Split(Join(lines)) == lines
    decreases |lines|, |lines[0]|
  {
    var s := Join(lines);
    if lines[0] != [] {
      var shorter := [lines[0][1..]] + lines[1..];
      assert s[1..] == Join(shorter);
      SplitJoin(shorter);
      assert shorter[1..] == lines[1..] && [s[0]] + shorter[0] == lines[0];
    } else if |lines| > 1 {
      assert s[1..] == Join(lines[1..]);
      SplitJoin(lines[1..]);
      assert lines == [[]] + lines[1..];
    }
  }

  // ---------- The editor ----------

  /** The key replaceDotEnvValue sees on a line. */
  function LineKey(line: string): Option<string> {
    if EqualsAt(line) == |line| then None else Some(TrimSpace(line[..EqualsAt(line)]))
  }

  function Entry(key: string, value: string): string { key + "=" + value }

  function NewLine(line: string, key: string, entry: string): string {
    if LineKey(line) == Some(key) then entry else line
  }

  /** Every line with the key rewritten. */
  function Rewrite(lines: seq<string>, key: string, entry: string): (r: seq<string>)
    ensures |r| == |lines| && forall i | 0 <= i < |lines| :: r[i] == NewLine(lines[i], key, entry)
  {
    seq(|lines|, i requires 0 <= i < |lines| => NewLine(lines[i], key, entry))
  }

  predicate Mentions(lines: seq<string>, key: string) {
    exists i :: 0 <= i < |lines| && LineKey(lines[i]) == Some(key)
  }

  /** Rewritten in place, or added before the final newline. */
  function UpsertLines(lines: seq<string>, key: string, entry: string): (r: seq<string>)
    requires lines != []
    ensures r != []
  {
    if Mentions(lines, key) then Rewrite(lines, key, entry)
    else if lines[|lines| - 1] == "" then lines[..|lines| - 1] + [entry, ""]
    else lines + [entry, ""]
  }

  function Upsert(contents: string, key: string, value: string): string {
    Join(UpsertLines(Split(contents), key, Entry(key, value)))
  }

  /** The loop of replaceDotEnvValue, with its found flag. */
  method RewriteMatching(original: seq<string>, key: string, entry: string) returns (lines: seq<string>, found: bool)
    ensures lines == Rewrite(original, key, entry) && found == Mentions(original, key)
  {
    lines, found := original, false;
    for i := 0 to |original|
      invariant |lines| == |original|
      invariant forall j | 0 <= j < i :: lines[j] == NewLine(original[j], key, entry)
      invariant forall j | i <= j < |original| :: lines[j] == original[j]
      invariant found <==> exists j :: 0 <= j < i && LineKey(original[j]) == Some(key)
    {
      if LineKey(lines[i]) != Some(key) {
        continue;
      }
      lines := lines[i := entry];
      found := true;
    }
  }

  method ReplaceDotEnvValue(contents: string, key: string, value: string) returns (r: string)
    ensures r == Upsert(contents, key, value)
  {
    var original := Split(contents);
    var lines, found := RewriteMatching(original, key, Entry(key, value));
    if !found {
      RewriteNothing(original, key, Entry(key, value));
      if lines[|lines| - 1] == "" {
        lines := lines[..|lines| - 1] + [Entry(key, value)];
        lines := lines + [""];
        assert lines == original[..|original| - 1] + [Entry(key, value), ""];
      } else {
        lines := lines + [Entry(key, value), ""];
      }
    }
    r := Join(lines);
  }

  lemma RewriteNothing(lines: seq<string>, key: string, entry: string)
    requires !Mentions(lines, key)
    ensures Rewrite(lines, key, entry) == lines
  {
  }

  // ---------- The reader ----------

  /** A key and value the reader sees on a line. */
  function ReadLine(line: string): Option<(string, string)> {
    var t := TrimSpace(line);
    if t == "" || t[0] == '#' || EqualsAt(t) == |t| then None
    else Some((TrimSpace(t[..EqualsAt(t)]), TrimQuotes(t[EqualsAt(t) + 1..])))
  }

  /** The value of the first line that carries the key. */
  function ReadFirst(lines: seq<string>, key: string): Option<string> {
    if lines == [] then None
    else if ReadLine(lines[0]).Some? && ReadLine(lines[0]).value.0 == key then Some(ReadLine(lines[0]).value.1)
    else ReadFirst(lines[1..], key)
  }

  function DropCR(line: string): string {
    if line != [] && line[|line| - 1] == '\r' then line[..|line| - 1] else line
  }

  /** Lines as bufio.Scanner gives them: no final empty line, no trailing CR. */
  function ScanLines(contents: string): seq<string> {
    var lines := Split(contents);
    var kept := if lines[|lines| - 1] == "" then lines[..|lines| - 1] else lines;
    seq(|kept|, i requires 0 <= i < |kept| => DropCR(kept[i]))
  }

  function Read(contents: string, key: string): Option<string> { ReadFirst(ScanLines(contents), key) }

  /** The scanning loop of loadAPITokenFromDotEnv, for any key. */
  method LoadValue(contents: string, key: string) returns (r: Option<string>)
    ensures r == Read(contents, key)
  {
    var lines := ScanLines(contents);
    for i := 0 to |lines|
      invariant ReadFirst(lines, key) == ReadFirst(lines[i..], key)
    {
      var line := TrimSpace(lines[i]);
      assert lines[i..][1..] == lines[i + 1..];
      if line == "" || line[0] == '#' {
        continue;
      }
      var at := EqualsAt(line);
      if at == |line| || TrimSpace(line[..at]) != key {
        continue;
      }
      return Some(TrimQuotes(line[at + 1..]));
    }
    return None;
  }

  // ---------- Trimming ----------

  lemma {:induction false} TrimLeftParts(s: string, drop: char -> bool) returns (cut: string)
    ensures s == cut + TrimLeft(s, drop) && forall i | 0 <= i < |cut| :: drop(cut[i])
    ensures TrimLeft(s, drop) != [] ==> !drop(TrimLeft(s, drop)[0])
  {
    cut := [];
    if s != [] && drop(s[0]) {
      var rest := TrimLeftParts(s[1..], drop);
      cut := [s[0]] + rest;
    }
  }

  lemma {:induction false} TrimRightParts(s: string, drop: char -> bool) returns (cut: string)
    ensures s == TrimRight(s, drop) + cut && forall i | 0 <= i < |cut| :: drop(cut[i])
    ensures TrimRight(s, drop) != [] ==> !drop(TrimRight(s, drop)[|TrimRight(s, drop)| - 1])
  {
    cut := [];
    if s != [] && drop(s[|s| - 1]) {
      var rest := TrimRightParts(s[..|s| - 1], drop);
      cut := rest + [s[|s| - 1]];
    }
  }

  lemma {:induction false} TrimLeftPrefix(a: string, s: string, drop: char -> bool)
    requires forall i | 0 <= i < |a| :: drop(a[i])
    ensures TrimLeft(a + s, drop) == TrimLeft(s, drop)
  {
    if a == [] {
      assert a + s == s;
    } else {
      TrimLeftPrefix(a[1..], s, drop);
      assert (a + s)[1..] == a[1..] + s;
    }
  }

  lemma {:induction false} TrimRightSuffix(s: string, b: string, drop: char -> bool)
    requires forall i | 0 <= i < |b| :: drop(b[i])
    ensures TrimRight(s + b, drop) == TrimRight(s, drop)
  {
    if b == [] {
      assert s + b == s;
    } else {
      TrimRightSuffix(s, b[..|b| - 1], drop);
      assert (s + b)[|s + b| - 1] == b[|b| - 1];
      assert (s + b)[..|s + b| - 1] == s + b[..|b| - 1];
    }
  }

  /** A prefix that ends in a kept character survives a right trim. */
  lemma {:induction false} TrimRightKeeps(a: string, s: string, drop: char -> bool)
    requires a != [] && !drop(a[|a| - 1])
    ensures TrimRight(a + s, drop) == a + TrimRight(s, drop)
  {
    if s == [] {
      assert a + s == a;
    } else if drop(s[|s| - 1]) {
      TrimRightKeeps(a, s[..|s| - 1], drop);
      assert (a + s)[..|a + s| - 1] == a + s[..|s| - 1];
    }
  }

  lemma {:induction false} EqualsFirst(s: string)
    ensures forall i | 0 <= i < EqualsAt(s) :: s[i] != '='
  {
    if s != [] && s[0] != '=' {
      EqualsFirst(s[1..]);
      forall i | 0 <= i < EqualsAt(s) ensures s[i] != '=' {
        if i > 0 { assert s[i] == s[1..][i - 1]; }
      }
    }
  }

  lemma {:induction false} EqualsShift(a: string, s: string)
    requires '=' !in a
    ensures EqualsAt(a + s) == |a| + EqualsAt(s)
  {
    if a == [] {
      assert a + s == s;
    } else {
      EqualsShift(a[1..], s);
      assert (a + s)[1..] == a[1..] + s;
    }
  }

  lemma {:induction false} EqualsStays(s: string, b: string)
    requires EqualsAt(s) < |s|
    ensures EqualsAt(s + b) == EqualsAt(s)
  {
    if s[0] != '=' {
      EqualsStays(s[1..], b);
      assert (s + b)[1..] == s[1..] + b;
    }
  }

  lemma TrimSpacePrefix(a: string, s: string)
    requires forall i | 0 <= i < |a| :: IsSpace(a[i])
    ensures TrimSpace(a + s) == TrimSpace(s)
  {
    TrimLeftPrefix(a, s, IsSpace);
  }

  lemma NoEquals(s: string)
    requires forall i | 0 <= i < |s| :: IsSpace(s[i])
    ensures '=' !in s && EqualsAt(s) == |s|
  {
  }

  /** A line as leading space, trimmed text and trailing space. */
  lemma TrimSpaceParts(line: string) returns (a: string, b: string)
    ensures line == a + (TrimSpace(line) + b)
    ensures forall i | 0 <= i < |a| :: IsSpace(a[i])
    ensures forall i | 0 <= i < |b| :: IsSpace(b[i])
  {
    a := TrimLeftParts(line, IsSpace);
    b := TrimRightParts(TrimLeft(line, IsSpace), IsSpace);
  }

  lemma EqualsWithin(a: string, t: string, b: string)
    requires '=' !in a && EqualsAt(t) < |t|
    ensures EqualsAt(a + (t + b)) == |a| + EqualsAt(t)
  {
    EqualsShift(a, t + b);
    EqualsStays(t, b);
  }

  lemma TakeWithin(a: string, t: string, b: string, k: nat)
    requires k <= |t|
    ensures (a + (t + b))[..|a| + k] == a + t[..k]
  {
  }

  lemma KeyWithin(a: string, t: string, b: string)
    requires forall i | 0 <= i < |a| :: IsSpace(a[i])
    requires EqualsAt(t) < |t|
    ensures LineKey(a + (t + b)) == Some(TrimSpace(t[..EqualsAt(t)]))
  {
    NoEquals(a);
    EqualsWithin(a, t, b);
    TakeWithin(a, t, b, EqualsAt(t));
    KeyIs(a + (t + b), |a| + EqualsAt(t), a + t[..EqualsAt(t)]);
    TrimSpacePrefix(a, t[..EqualsAt(t)]);
  }

  lemma KeyIs(line: string, k: nat, before: string)
    requires EqualsAt(line) == k < |line| && line[..k] == before
    ensures LineKey(line) == Some(TrimSpace(before))
  {
  }

  lemma NoKeyWithin(a: string, t: string, b: string)
    requires forall i | 0 <= i < |a| :: IsSpace(a[i])
    requires forall i | 0 <= i < |b| :: IsSpace(b[i])
    requires EqualsAt(t) == |t|
    ensures LineKey(a + (t + b)) == None
  {
    NoEquals(a);
    NoEquals(b);
    EqualsShift(a, t + b);
    EqualsFirst(t);
    EqualsShift(t, b);
  }

  /** Editor and reader see the same key: trimming the line first changes
      neither where its first '=' is nor the trimmed text before it. */
  lemma KeyAgrees(line: string)
    ensures var t := TrimSpace(line);
            LineKey(line) == if EqualsAt(t) == |t| then None else Some(TrimSpace(t[..EqualsAt(t)]))
  {
    var a, b := TrimSpaceParts(line);
    var t := TrimSpace(line);
    if EqualsAt(t) == |t| { NoKeyWithin(a, t, b); } else { KeyWithin(a, t, b); }
  }

  /** The line carries the key, for the reader. */
  predicate Carries(line: string, key: string) { ReadLine(line).Some? && ReadLine(line).value.0 == key }

  lemma CarriesLineKey(line: string, key: string)
    requires Carries(line, key)
    ensures LineKey(line) == Some(key)
  {
    KeyAgrees(line);
  }

  // ---------- Scanner lines and split lines ----------

  lemma {:induction false} TrimLeftAppend(s: string, c: char)
    requires IsSpace(c)
    ensures TrimLeft(s + [c], IsSpace) == if TrimLeft(s, IsSpace) == [] then [] else TrimLeft(s, IsSpace) + [c]
  {
    if s == [] {
      assert (s + [c])[1..] == [];
    } else if IsSpace(s[0]) {
      TrimLeftAppend(s[1..], c);
      assert (s + [c])[1..] == s[1..] + [c];
    }
  }

  lemma DropCRTrims(line: string)
    ensures TrimSpace(DropCR(line)) == TrimSpace(line)
  {
    if line != [] && line[|line| - 1] == '\r' {
      var s := line[..|line| - 1];
      assert line == s + ['\r'];
      TrimLeftAppend(s, '\r');
      TrimRightSuffix(TrimLeft(s, IsSpace), ['\r'], IsSpace);
    }
  }

  lemma {:induction false} ReadAgree(a: seq<string>, b: seq<string>, key: string)
    requires |a| == |b|
    requires forall i | 0 <= i < |a| :: Carries(a[i], key) <==> Carries(b[i], key)
    requires forall i | 0 <= i < |a| && Carries(a[i], key) :: ReadLine(a[i]) == ReadLine(b[i])
    ensures ReadFirst(a, key) == ReadFirst(b, key)
  {
    if a != [] { ReadAgree(a[1..], b[1..], key); }
  }

  lemma {:induction false} ReadConcat(a: seq<string>, b: seq<string>, key: string)
    ensures ReadFirst(a + b, key) == if ReadFirst(a, key).Some? then ReadFirst(a, key) else ReadFirst(b, key)
  {
    if a == [] {
      assert a + b == b;
    } else {
      ReadConcat(a[1..], b, key);
      assert (a + b)[1..] == a[1..] + b;
    }
  }

  lemma ReadIsSplit(contents: string, key: string)
    ensures Read(contents, key) == ReadFirst(Split(contents), key)
  {
    var lines := Split(contents);
    var n := |lines| - 1;
    var kept := if lines[n] == "" then lines[..n] else lines;
    forall i | 0 <= i < |kept| ensures ReadLine(ScanLines(contents)[i]) == ReadLine(kept[i]) {
      DropCRTrims(kept[i]);
    }
    ReadAgree(ScanLines(contents), kept, key);
    if lines[n] == "" {
      assert lines == lines[..n] + [""];
      ReadConcat(lines[..n], [""], key);
    }
  }

  // ---------- The entry line ----------

  /** Keys the editor is given: trimmed, one line, no '=', not a comment. */
  predicate ProperKey(key: string) {
    TrimSpace(key) == key && '=' !in key && '\n' !in key && (key == "" || key[0] != '#')
  }

  /** What the reader makes of a written value. */
  function ReadBack(value: string): string { TrimQuotes(TrimRight(value, IsSpace)) }

  lemma {:induction false} TrimLeftShorter(s: string, drop: char -> bool)
    ensures |TrimLeft(s, drop)| <= |s|
    ensures s != [] && drop(s[0]) ==> |TrimLeft(s, drop)| < |s|
  {
    if s != [] { TrimLeftShorter(s[1..], drop); }
  }

  lemma {:induction false} TrimRightShorter(s: string, drop: char -> bool)
    ensures |TrimRight(s, drop)| <= |s|
    ensures s != [] && drop(s[|s| - 1]) ==> |TrimRight(s, drop)| < |s|
  {
    if s != [] { TrimRightShorter(s[..|s| - 1], drop); }
  }

  lemma ProperStart(key: string)
    requires TrimSpace(key) == key && key != ""
    ensures !IsSpace(key[0])
  {
    TrimLeftShorter(key, IsSpace);
    TrimRightShorter(TrimLeft(key, IsSpace), IsSpace);
  }

  lemma EntryTrimmed(key: string, value: string)
    requires ProperKey(key)
    ensures TrimSpace(Entry(key, value)) == key + "=" + TrimRight(value, IsSpace)
  {
    var e := Entry(key, value);
    if key != "" { ProperStart(key); }
    assert e[0] == if key == "" then '=' else key[0];
    assert e == (key + "=") + value;
    TrimRightKeeps(key + "=", value, IsSpace);
  }

  lemma EntryParts(key: string, v: string)
    requires '=' !in key
    ensures var t := key + "=" + v; EqualsAt(t) == |key| && t[..|key|] == key && t[|key| + 1..] == v
  {
    var t := key + "=" + v;
    assert t == key + ("=" + v);
    EqualsShift(key, "=" + v);
  }

  lemma EntryKeyed(key: string, value: string)
    requires ProperKey(key)
    ensures LineKey(Entry(key, value)) == Some(key)
  {
    EntryParts(key, value);
    KeyIs(Entry(key, value), |key|, key);
  }

  lemma EntryRead(key: string, value: string)
    requires ProperKey(key)
    ensures ReadLine(Entry(key, value)) == Some((key, ReadBack(value)))
  {
    var t := key + "=" + TrimRight(value, IsSpace);
    EntryTrimmed(key, value);
    EntryParts(key, TrimRight(value, IsSpace));
    assert t[0] == if key == "" then '=' else key[0];
  }

  lemma EntryReads(key: string, value: string)
    requires ProperKey(key)
    ensures LineKey(Entry(key, value)) == Some(key)
    ensures ReadLine(Entry(key, value)) == Some((key, ReadBack(value)))
  {
    EntryKeyed(key, value);
    EntryRead(key, value);
  }

  // ---------- The upsert and the reader ----------

  /** The edited lines survive the trip through the file. */
  lemma UpsertSplits(contents: string, key: string, value: string)
    requires '\n' !in key && '\n' !in value
    ensures Split(Upsert(contents, key, value)) == UpsertLines(Split(contents), key, Entry(key, value))
  {
    SplitJoin(UpsertLines(Split(contents), key, Entry(key, value)));
  }

  /** The entry stands among the edited lines, and no other line has its key. */
  lemma EditedKeys(lines: seq<string>, key: string, entry: string)
    requires lines != [] && LineKey(entry) == Some(key)
    ensures var r := UpsertLines(lines, key, entry);
            entry in r && forall i | 0 <= i < |r| && LineKey(r[i]) == Some(key) :: r[i] == entry
  {
    if Mentions(lines, key) {
      var i :| 0 <= i < |lines| && LineKey(lines[i]) == Some(key);
      assert Rewrite(lines, key, entry)[i] == entry;
    } else {
      assert LineKey("") == None;
      var n := |UpsertLines(lines, key, entry)|;
      assert UpsertLines(lines, key, entry)[n - 2] == entry;
    }
  }

  lemma {:induction false} ReadOnly(lines: seq<string>, key: string, entry: string)
    requires Carries(entry, key) && entry in lines
    requires forall i | 0 <= i < |lines| && Carries(lines[i], key) :: lines[i] == entry
    ensures ReadFirst(lines, key) == Some(ReadLine(entry).value.1)
  {
    if !Carries(lines[0], key) { ReadOnly(lines[1..], key, entry); }
  }

  /** Reading a key just written gives the value as the reader trims it. */
  lemma UpsertThenRead(contents: string, key: string, value: string)
    requires ProperKey(key) && '\n' !in value
    ensures Read(Upsert(contents, key, value), key) == Some(ReadBack(value))
  {
    var entry := Entry(key, value);
    var lines := UpsertLines(Split(contents), key, entry);
    EntryReads(key, value);
    EditedKeys(Split(contents), key, entry);
    forall i | 0 <= i < |lines| && Carries(lines[i], key) ensures lines[i] == entry {
      CarriesLineKey(lines[i], key);
    }
    ReadOnly(lines, key, entry);
    UpsertSplits(contents, key, value);
    ReadIsSplit(Upsert(contents, key, value), key);
  }

  /** Values the reader leaves alone: no trailing space, no quote at either end. */
  predicate Plain(value: string) {
    value == "" || (!IsSpace(value[|value| - 1]) && value[0] !in {'"', '\''} && value[|value| - 1] !in {'"', '\''})
  }

  lemma ReadBackExact(value: string)
    ensures ReadBack(value) == value <==> Plain(value)
  {
    var t := TrimRight(value, IsSpace);
    TrimRightShorter(value, IsSpace);
    TrimLeftShorter(t, IsQuote);
    TrimRightShorter(TrimLeft(t, IsQuote), IsQuote);
  }

  /** The value read is the value written, for exactly the plain values. */
  lemma UpsertReadsBack(contents: string, key: string, value: string)
    requires ProperKey(key) && '\n' !in value
    ensures Read(Upsert(contents, key, value), key) == Some(value) <==> Plain(value)
  {
    UpsertThenRead(contents, key, value);
    ReadBackExact(value);
  }

  /** Not every value comes back: a quoted one loses its quotes, of either kind. */
  lemma QuotedValueChanges(contents: string, key: string, q: char)
    requires ProperKey(key) && (q == '\'' || q == '"')
    ensures Read(Upsert(contents, key, [q] + "a" + [q]), key) == Some("a")
  {
    UpsertThenRead(contents, key, [q] + "a" + [q]);
    QuotesTrimmed(q);
  }

  lemma QuotesTrimmed(q: char)
    requires q == '\'' || q == '"'
    ensures ReadBack([q] + "a" + [q]) == "a"
  {
    var s, t := [q] + "a" + [q], "a" + [q];
    assert s[2] == q && TrimRight(s, IsSpace) == s;
    assert s == [q] + t && t[0] == 'a';
    TrimLeftPrefix([q], t, IsQuote);
    assert TrimLeft(t, IsQuote) == t;
    TrimRightSuffix("a", [q], IsQuote);
    assert TrimRight("a", IsQuote) == "a";
  }

  lemma OtherLineReads(line: string, key: string, entry: string, other: string)
    requires LineKey(entry) == Some(key) && other != key
    ensures Carries(NewLine(line, key, entry), other) <==> Carries(line, other)
    ensures Carries(line, other) ==> NewLine(line, key, entry) == line
  {
    if Carries(line, other) { CarriesLineKey(line, other); }
    if Carries(entry, other) { CarriesLineKey(entry, other); }
  }

  lemma TailReads(key: string, entry: string, other: string)
    requires LineKey(entry) == Some(key) && other != key
    ensures ReadFirst([entry, ""], other) == None == ReadFirst([""], other)
  {
    if Carries(entry, other) { CarriesLineKey(entry, other); }
    assert ReadFirst([""], other) == ReadFirst([""][1..], other) == None;
    assert [entry, ""][1..] == [""];
  }

  lemma OtherLines(lines: seq<string>, key: string, entry: string, other: string)
    requires lines != [] && LineKey(entry) == Some(key) && other != key
    ensures ReadFirst(UpsertLines(lines, key, entry), other) == ReadFirst(lines, other)
  {
    if Mentions(lines, key) {
      var r := Rewrite(lines, key, entry);
      forall i | 0 <= i < |lines| ensures Carries(lines[i], other) <==> Carries(r[i], other)
                                  ensures Carries(lines[i], other) ==> r[i] == lines[i] {
        OtherLineReads(lines[i], key, entry, other);
      }
      ReadAgree(lines, r, other);
    } else {
      var n := |lines| - 1;
      var kept := if lines[n] == "" then lines[..n] else lines;
      TailReads(key, entry, other);
      ReadConcat(kept, [entry, ""], other);
      if lines[n] == "" {
        assert lines == kept + [""];
        ReadConcat(kept, [""], other);
      }
    }
  }

  /** Every other key, the API token's among them, reads as before. */
  lemma OtherKeysUnchanged(contents: string, key: string, value: string, other: string)
    requires ProperKey(key) && '\n' !in value && other != key
    ensures Read(Upsert(contents, key, value), other) == Read(contents, other)
  {
    EntryReads(key, value);
    UpsertSplits(contents, key, value);
    OtherLines(Split(contents), key, Entry(key, value), other);
    ReadIsSplit(Upsert(contents, key, value), other);
    ReadIsSplit(contents, other);
  }

  /** Writing the same value twice is writing it once. */
  lemma UpsertIdempotent(contents: string, key: string, value: string)
    requires ProperKey(key) && '\n' !in value
    ensures Upsert(Upsert(contents, key, value), key, value) == Upsert(contents, key, value)
  {
    var entry := Entry(key, value);
    var lines := UpsertLines(Split(contents), key, entry);
    EntryReads(key, value);
    EditedKeys(Split(contents), key, entry);
    UpsertSplits(contents, key, value);
    assert Mentions(lines, key);
    assert Rewrite(lines, key, entry) == lines;
  }

  /** Lines of other keys and lines without one, in order. */
  function Others(lines: seq<string>, key: string): seq<string> {
    if lines == [] then []
    else if LineKey(lines[0]) == Some(key) then Others(lines[1..], key)
    else [lines[0]] + Others(lines[1..], key)
  }

  lemma {:induction false} OthersConcat(a: seq<string>, b: seq<string>, key: string)
    ensures Others(a + b, key) == Others(a, key) + Others(b, key)
  {
    if a == [] {
      assert a + b == b;
    } else {
      var ab := a + b;
      assert ab[0] == a[0] && ab[1..] == a[1..] + b;
      OthersConcat(a[1..], b, key);
    }
  }

  lemma {:induction false} OthersRewrite(lines: seq<string>, key: string, entry: string)
    requires LineKey(entry) == Some(key)
    ensures Others(Rewrite(lines, key, entry), key) == Others(lines, key)
  {
    if lines != [] {
      OthersRewrite(lines[1..], key, entry);
      assert Rewrite(lines, key, entry)[1..] == Rewrite(lines[1..], key, entry);
    }
  }

  lemma TailOthers(key: string, entry: string)
    requires LineKey(entry) == Some(key)
    ensures Others([entry, ""], key) == [""] == Others([""], key)
  {
    assert Others([""], key) == [""] + Others([""][1..], key) == [""];
    assert [entry, ""][1..] == [""];
  }

  /** The other lines stay, in order; a file whose last line had no newline gets one. */
  lemma OtherLinesKept(contents: string, key: string, value: string)
    requires ProperKey(key) && '\n' !in value
    ensures var lines := Split(contents);
            var ended := Mentions(lines, key) || lines[|lines| - 1] == "";
            Others(Split(Upsert(contents, key, value)), key)
              == Others(lines, key) + if ended then [] else [""]
  {
    var lines, entry := Split(contents), Entry(key, value);
    EntryReads(key, value);
    UpsertSplits(contents, key, value);
    if Mentions(lines, key) { OthersRewrite(lines, key, entry); } else { OthersAdded(lines, key, entry); }
  }

  lemma OthersAdded(lines: seq<string>, key: string, entry: string)
    requires lines != [] && LineKey(entry) == Some(key) && !Mentions(lines, key)
    ensures Others(UpsertLines(lines, key, entry), key)
            == Others(lines, key) + if lines[|lines| - 1] == "" then [] else [""]
  {
    var n := |lines| - 1;
    TailOthers(key, entry);
    if lines[n] == "" {
      assert lines == lines[..n] + [""];
      OthersConcat(lines[..n], [entry, ""], key);
      OthersConcat(lines[..n], [""], key);
    } else {
      OthersConcat(lines, [entry, ""], key);
    }
  }

  // ---------- The edited text ----------

  lemma {:induction false} JoinSplit(s: string)
    ensures Join(Split(s)) == s
  {
    if s != [] {
      JoinSplit(s[1..]);
      var rest := Split(s[1..]);
      if s[0] == '\n' {
        assert Split(s)[1..] == rest;
      } else {
        assert Split(s)[0] == [s[0]] + rest[0] && Split(s)[1..] == rest[1..];
      }
    }
  }

  lemma {:induction false} JoinConcat(a: seq<string>, b: seq<string>)
    requires a != [] && b != []
    ensures Join(a + b) == Join(a) + ['\n'] + Join(b)
  {
    if |a| == 1 {
      assert (a + b)[1..] == b;
    } else {
      JoinConcat(a[1..], b);
      assert (a + b)[1..] == a[1..] + b;
    }
  }

  lemma JoinTail(entry: string)
    ensures Join([entry, ""]) == entry + ['\n'] && Join([""]) == ""
  {
    assert [entry, ""][1..] == [""];
  }

  /** The last line is empty exactly for a file that is empty or ends in a newline. */
  lemma LastLine(lines: seq<string>)
    requires lines != [] && forall i | 0 <= i < |lines| :: '\n' !in lines[i]
    ensures lines[|lines| - 1] == "" <==> Join(lines) == "" || Join(lines)[|Join(lines)| - 1] == '\n'
  {
    var n := |lines| - 1;
    if n == 0 {
      assert Join(lines) == lines[0];
    } else {
      assert lines == lines[..n] + [lines[n]];
      JoinConcat(lines[..n], [lines[n]]);
      assert Join([lines[n]]) == lines[n];
    }
  }

  /** The text with one more line, after a newline if its last line has none. */
  function WithLine(text: string, line: string): string {
    (if text == "" || text[|text| - 1] == '\n' then text else text + ['\n']) + (line + ['\n'])
  }

  /** A new key goes to the end of the file, on a line of its own. */
  lemma AppendedAtEnd(contents: string, key: string, value: string)
    requires !Mentions(Split(contents), key)
    ensures Upsert(contents, key, value) == WithLine(contents, key + "=" + value)
  {
    JoinSplit(contents);
    AppendedText(Split(contents), key, Entry(key, value));
  }

  lemma AppendedText(lines: seq<string>, key: string, entry: string)
    requires lines != [] && (forall i | 0 <= i < |lines| :: '\n' !in lines[i]) && !Mentions(lines, key)
    ensures Join(UpsertLines(lines, key, entry)) == WithLine(Join(lines), entry)
  {
    LastLine(lines);
    AppendLines(lines, key, entry);
  }

  lemma AppendLines(lines: seq<string>, key: string, entry: string)
    requires lines != [] && !Mentions(lines, key)
    ensures Join(UpsertLines(lines, key, entry)) ==
            (if lines[|lines| - 1] == "" then Join(lines) else Join(lines) + ['\n']) + (entry + ['\n'])
  {
    if lines[|lines| - 1] == "" { AppendAfterNewline(lines, entry); } else { AppendAfterText(lines, entry); }
  }

  lemma AppendAfterText(lines: seq<string>, entry: string)
    requires lines != []
    ensures Join(lines + [entry, ""]) == Join(lines) + ['\n'] + (entry + ['\n'])
  {
    JoinTail(entry);
    JoinConcat(lines, [entry, ""]);
  }

  lemma AppendAfterNewline(lines: seq<string>, entry: string)
    requires lines != [] && lines[|lines| - 1] == ""
    ensures Join(lines[..|lines| - 1] + [entry, ""]) == Join(lines) + (entry + ['\n'])
  {
    var init := lines[..|lines| - 1];
    assert lines == init + [""];
    AppendToInit(init, entry);
  }

  lemma AppendToInit(init: seq<string>, entry: string)
    ensures Join(init + [entry, ""]) == Join(init + [""]) + (entry + ['\n'])
  {
    JoinTail(entry);
    if init == [] {
      assert init + [entry, ""] == [entry, ""] && init + [""] == [""];
    } else {
      JoinConcat(init, [""]);
      AppendAfterText(init, entry);
      assert Join(init) + ['\n'] + "" == Join(init) + ['\n'];
    }
  }

  /** A known key is rewritten in place, on every line that has it. */
  lemma RewrittenInPlace(contents: string, key: string, value: string, i: nat)
    requires Mentions(Split(contents), key) && '\n' !in key && '\n' !in value && i < |Split(contents)|
    ensures |Split(Upsert(contents, key, value))| == |Split(contents)|
    ensures Split(Upsert(contents, key, value))[i] ==
            if LineKey(Split(contents)[i]) == Some(key) then key + "=" + value else Split(contents)[i]
  {
    UpsertSplits(contents, key, value);
  }

  // ---------- What the reader accepts ----------

  predicate Blank(s: string) { forall i | 0 <= i < |s| :: s[i] == ' ' || s[i] == '\t' }

  /** Unicode white space, by code point. */
  lemma SpacesAre(c: char)
    ensures IsSpace(c) <==>
            c as int in {9, 10, 11, 12, 13, 32, 133, 160, 5760, 8192, 8193, 8194, 8195, 8196, 8197, 8198, 8199, 8200, 8201, 8202,
                         8232, 8233, 8239, 8287, 12288}
  {
  }

  /** Blanks and tabs before and after the key do not matter, to editor and reader. */
  lemma SpacedKeyed(a: string, key: string, b: string, value: string)
    requires Blank(a) && Blank(b) && ProperKey(key)
    ensures LineKey(a + key + b + "=" + value) == Some(key)
  {
    var before := a + key + b;
    NoEquals(a);
    NoEquals(b);
    EntryParts(before, value);
    KeyIs(before + "=" + value, |before|, before);
    assert before == a + (key + b);
    TrimSpacePrefix(a, key + b);
    TrimmedSuffix(key, b);
  }

  lemma TrimmedSuffix(key: string, b: string)
    requires TrimSpace(key) == key && Blank(b)
    ensures TrimSpace(key + b) == key
  {
    if key == "" {
      assert key + b == b + "";
      TrimLeftPrefix(b, "", IsSpace);
    } else {
      ProperStart(key);
      assert (key + b)[0] == key[0];
      TrimRightSuffix(key, b, IsSpace);
    }
  }

  /** A comment is no entry for the reader, whatever it says. */
  lemma CommentSkipped(a: string, rest: string)
    requires Blank(a)
    ensures ReadLine(a + "#" + rest) == None
  {
    var t := "#" + rest;
    assert a + "#" + rest == a + t;
    TrimSpacePrefix(a, t);
    TrimRightKeeps("#", rest, IsSpace);
    assert t[0] == '#' && TrimLeft(t, IsSpace) == t;
    assert TrimSpace(t)[0] == '#';
  }

  /** The first line that carries the key decides, and without one there is no value. */
  lemma {:induction false} FirstCarrierRead(lines: seq<string>, key: string, i: nat)
    requires forall j | 0 <= j < i && j < |lines| :: !Carries(lines[j], key)
    ensures i < |lines| && Carries(lines[i], key) ==> ReadFirst(lines, key) == Some(ReadLine(lines[i]).value.1)
    ensures i >= |lines| ==> ReadFirst(lines, key) == None
  {
    if lines != [] && i > 0 { FirstCarrierRead(lines[1..], key, i - 1); }
  }
}
