/** Merging managed entries into an env file: split into lines, drop the lines of managed
    keys and one trailing empty line, append the entries, trim the end. */
module MergeEnv {
  import opened Options

  // ---------- the function ----------

  /** `text.split(/\r?\n/)`. */
  function Lines(s: string): (lines: seq<string>)
    ensures lines != []
    decreases |s|
  {
    if s == [] then [[]]
    else if s[0] == '\n' then [[]] + Lines(s[1..])
    else if s[0] == '\r' && |s| > 1 && s[1] == '\n' then [[]] + Lines(s[2..])
    else
      var rest := Lines(s[1..]);
      [[s[0]] + rest[0]] + rest[1..]
  }

  predicate KeyStart(c: char) {
    'A' <= c <= 'Z' || 'a' <= c <= 'z' || c == '_'
  }

  predicate KeyChar(c: char) {
    KeyStart(c) || '0' <= c <= '9'
  }

  /** Length of the longest run of key characters at the front. */
  function KeyRun(s: string): (n: nat)
    ensures n <= |s| && (forall k :: 0 <= k < n ==> KeyChar(s[k])) && (n < |s| ==> !KeyChar(s[n]))
  {
    if s != [] && KeyChar(s[0]) then 1 + KeyRun(s[1..]) else 0
  }

  /** The group of `/^([A-Za-z_][A-Za-z0-9_]*)=/`, if the line matches. */
  function KeyOf(line: string): Option<string> {
    var n := KeyRun(line);
    if 0 < n < |line| && KeyStart(line[0]) && line[n] == '=' then Some(line[..n]) else None
  }

  datatype Entry = Entry(key: string, value: string) {
    function Line(): string { key + "=" + value }
  }

  predicate Managed(line: string, entries: seq<Entry>) {
    KeyOf(line).Some? && exists i :: 0 <= i < |entries| && entries[i].key == KeyOf(line).value
  }

  function Unmanaged(lines: seq<string>, entries: seq<Entry>): seq<string> {
    if lines == [] then []
    else (if Managed(lines[0], entries) then [] else [lines[0]]) + Unmanaged(lines[1..], entries)
  }

  /** Drops the last line if it is empty. */
  function DropLastEmpty(lines: seq<string>): seq<string> {
    if lines != [] && lines[|lines| - 1] == [] then lines[..|lines| - 1] else lines
  }

  function EntryLines(entries: seq<Entry>): (lines: seq<string>)
    ensures |lines| == |entries| && forall i :: 0 <= i < |entries| ==> lines[i] == entries[i].Line()
  {
    if entries == [] then [] else EntryLines(entries[..|entries| - 1]) + [entries[|entries| - 1].Line()]
  }

  function Join(lines: seq<string>): string {
    if lines == [] then []
    else if |lines| == 1 then lines[0]
    else lines[0] + "\n" + Join(lines[1..])
  }

  /** White space and line terminators as trimEnd() takes them. */
  predicate IsSpace(c: char) {
    c in {'\t', '\n', '\U{000B}', '\U{000C}', '\r', ' ', '\U{00A0}', '\U{1680}', '\U{2028}', '\U{2029}',
          '\U{202F}', '\U{205F}', '\U{3000}', '\U{FEFF}'} || '\U{2000}' <= c <= '\U{200A}'
  }

  function TrimEnd(s: string): string {
    if s != [] && IsSpace(s[|s| - 1]) then TrimEnd(s[..|s| - 1]) else s
  }

  function Kept(existing: string, entries: seq<Entry>): seq<string> {
    DropLastEmpty(Unmanaged(Lines(existing), entries))
  }

  function Merge(existing: string, entries: seq<Entry>): string {
    TrimEnd(Join(Kept(existing, entries) + EntryLines(entries))) + "\n"
  }

  // ---------- what is assumed of the entries ----------

  predicate IsKey(s: string) {
    s != [] && KeyStart(s[0]) && forall c :: c in s ==> KeyChar(c)
  }

  predicate OneLine(s: string) {
    '\n' !in s
  }

  /** Nonempty, identifier keys, each once, values on one line. */
  predicate ProperEntries(entries: seq<Entry>) {
    && entries != []
    && (forall i :: 0 <= i < |entries| ==> IsKey(entries[i].key) && OneLine(entries[i].value))
    && (forall i, j :: 0 <= i < j < |entries| ==> entries[i].key != entries[j].key)
  }

  // ---------- lines ----------

  predicate EndsInReturn(line: string) {
    line != [] && line[|line| - 1] == '\r'
  }

  function StripReturn(line: string): string {
    if EndsInReturn(line) then line[..|line| - 1] else line
  }

  lemma {:induction false} LinesHaveNoBreak(s: string)
    ensures forall l :: l in Lines(s) ==> OneLine(l)
    decreases |s|
  {
    if s == [] {
    } else if s[0] == '\n' {
      LinesHaveNoBreak(s[1..]);
    } else if s[0] == '\r' && |s| > 1 && s[1] == '\n' {
      LinesHaveNoBreak(s[2..]);
    } else {
      LinesHaveNoBreak(s[1..]);
      var rest := Lines(s[1..]);
      assert rest[0] in rest;
      forall l | l in Lines(s) ensures OneLine(l) {
        assert l == [s[0]] + rest[0] || l in rest[1..];
        assert l in rest[1..] ==> l in rest;
      }
    }
  }

  /** Splitting at the first line feed takes the carriage return before it along. */
  lemma {:induction false} LinesCons(l: string, rest: string)
    requires OneLine(l)
    ensures Lines(l + "\n" + rest) == [StripReturn(l)] + Lines(rest)
    decreases |l|
  {
    var s := l + "\n" + rest;
    if l == [] {
      assert s[1..] == rest;
    } else if l == "\r" {
      assert s[0] == '\r' && s[1] == '\n' && s[2..] == rest;
    } else {
      assert s[0] == l[0] && l[0] in l;
      if |l| > 1 {
        assert s[1] == l[1] && l[1] in l;
      }
      assert s[1..] == l[1..] + "\n" + rest;
      LinesCons(l[1..], rest);
      assert [l[0]] + StripReturn(l[1..]) == StripReturn(l);
    }
  }

  function StripAll(lines: seq<string>): (stripped: seq<string>)
    ensures |stripped| == |lines| && forall i :: 0 <= i < |lines| ==> stripped[i] == StripReturn(lines[i])
  {
    if lines == [] then [] else [StripReturn(lines[0])] + StripAll(lines[1..])
  }

  /** Splitting a joined file gives its lines back, up to one trailing carriage return
      each, and an empty last line. */
  lemma {:induction false} LinesOfJoin(lines: seq<string>)
    requires lines != [] && forall l :: l in lines ==> OneLine(l)
    ensures Lines(Join(lines) + "\n") == StripAll(lines) + [[]]
  {
    assert lines[0] in lines;
    if |lines| == 1 {
      assert lines[0] + "\n" + [] == lines[0] + "\n";
      LinesCons(lines[0], []);
      assert StripAll(lines) == [StripReturn(lines[0])];
    } else {
      assert Join(lines) + "\n" == lines[0] + "\n" + (Join(lines[1..]) + "\n");
      LinesCons(lines[0], Join(lines[1..]) + "\n");
      LinesOfJoin(lines[1..]);
    }
  }

  // ---------- keys ----------

  lemma KeyOfEntry(e: Entry)
    requires IsKey(e.key)
    ensures KeyOf(e.Line()) == Some(e.key)
  {
    var line := e.Line();
    var n := KeyRun(line);
    assert line[|e.key|] == '=';
    assert forall k :: 0 <= k < |e.key| ==> line[k] == e.key[k] && e.key[k] in e.key;
    assert n == |e.key| && line[..n] == e.key;
  }

  lemma KeyOfStripped(line: string)
    ensures KeyOf(StripReturn(line)) == KeyOf(line)
  {
    if EndsInReturn(line) {
      var short := StripReturn(line);
      var n, m := KeyRun(line), KeyRun(short);
      assert n <= |short|;
      assert forall k :: 0 <= k < |short| ==> short[k] == line[k];
      assert n == m;
      assert short[..n] == line[..n];
    }
  }

  lemma {:induction false} UnmanagedConcat(a: seq<string>, b: seq<string>, entries: seq<Entry>)
    ensures Unmanaged(a + b, entries) == Unmanaged(a, entries) + Unmanaged(b, entries)
  {
    if a == [] {
      assert a + b == b;
    } else {
      assert (a + b)[1..] == a[1..] + b;
      UnmanagedConcat(a[1..], b, entries);
    }
  }

  lemma {:induction false} UnmanagedAll(lines: seq<string>, entries: seq<Entry>)
    requires forall l :: l in lines ==> !Managed(l, entries)
    ensures Unmanaged(lines, entries) == lines
  {
    if lines != [] {
      assert lines[0] in lines;
      UnmanagedAll(lines[1..], entries);
    }
  }

  lemma {:induction false} UnmanagedNone(lines: seq<string>, entries: seq<Entry>)
    requires forall l :: l in lines ==> Managed(l, entries)
    ensures Unmanaged(lines, entries) == []
  {
    if lines != [] {
      assert lines[0] in lines;
      UnmanagedNone(lines[1..], entries);
    }
  }

  lemma {:induction false} UnmanagedMembers(lines: seq<string>, entries: seq<Entry>)
    ensures forall l :: l in Unmanaged(lines, entries) <==> l in lines && !Managed(l, entries)
  {
    if lines != [] {
      UnmanagedMembers(lines[1..], entries);
      assert forall l :: l in lines <==> l == lines[0] || l in lines[1..];
    }
  }

  // ---------- trimming ----------

  lemma {:induction false} TrimAppended(a: string, b: string)
    requires exists c :: c in b && !IsSpace(c)
    ensures TrimEnd(a + b) == a + TrimEnd(b)
    decreases |b|
  {
    var last := b[|b| - 1];
    assert (a + b)[|a + b| - 1] == last;
    if IsSpace(last) {
      var c :| c in b && !IsSpace(c);
      assert b == b[..|b| - 1] + [last];
      assert c in b[..|b| - 1];
      assert (a + b)[..|a + b| - 1] == a + b[..|b| - 1];
      TrimAppended(a, b[..|b| - 1]);
    }
  }

  function Trimmed(e: Entry): Entry {
    e.(value := TrimEnd(e.value))
  }

  /** Trimming a file that ends in an entry trims that entry's value and nothing else. */
  lemma {:induction false} TrimJoined(lines: seq<string>, e: Entry)
    ensures TrimEnd(Join(lines + [e.Line()])) == Join(lines + [Trimmed(e).Line()])
  {
    if lines == [] {
      assert lines + [e.Line()] == [e.Line()] && lines + [Trimmed(e).Line()] == [Trimmed(e).Line()];
      TrimLine(e);
    } else {
      var rest, rest' := lines[1..] + [e.Line()], lines[1..] + [Trimmed(e).Line()];
      assert (lines + [e.Line()])[1..] == rest && (lines + [Trimmed(e).Line()])[1..] == rest';
      TrimJoined(lines[1..], e);
      EqualsInJoin(lines[1..], e);
      TrimAppended(lines[0] + "\n", Join(rest));
    }
  }

  lemma TrimLine(e: Entry)
    ensures TrimEnd(e.Line()) == Trimmed(e).Line()
  {
    var head := e.key + "=";
    if exists c :: c in e.value && !IsSpace(c) {
      TrimAppended(head, e.value);
    } else {
      AllSpace(e.value);
      assert head == e.key + "=";
      TrimToHead(head, e.value);
    }
  }

  lemma {:induction false} AllSpace(s: string)
    requires forall c :: c in s ==> IsSpace(c)
    ensures TrimEnd(s) == []
  {
    if s != [] {
      assert s[|s| - 1] in s;
      AllSpace(s[..|s| - 1]);
    }
  }

  lemma {:induction false} TrimToHead(head: string, s: string)
    requires (forall c :: c in s ==> IsSpace(c)) && head != [] && !IsSpace(head[|head| - 1])
    ensures TrimEnd(head + s) == head
    decreases |s|
  {
    if s == [] {
      assert head + s == head;
    } else {
      assert s[|s| - 1] in s;
      assert (head + s)[..|head + s| - 1] == head + s[..|s| - 1];
      TrimToHead(head, s[..|s| - 1]);
    }
  }

  lemma {:induction false} EqualsInJoin(lines: seq<string>, e: Entry)
    ensures exists c :: c in Join(lines + [e.Line()]) && !IsSpace(c)
  {
    if lines == [] {
      assert lines + [e.Line()] == [e.Line()];
      assert e.Line()[|e.key|] == '=';
      assert '=' in Join(lines + [e.Line()]);
    } else {
      EqualsInJoin(lines[1..], e);
      assert (lines + [e.Line()])[1..] == lines[1..] + [e.Line()];
      var c :| c in Join(lines[1..] + [e.Line()]) && !IsSpace(c);
      assert c in Join(lines + [e.Line()]);
    }
  }

  // ---------- the result ----------

  /** The entries as they stand in the file: the last value loses trailing space. */
  function Written(entries: seq<Entry>): (written: seq<Entry>)
    ensures |written| == |entries|
  {
    if entries == [] then [] else entries[..|entries| - 1] + [Trimmed(entries[|entries| - 1])]
  }

  lemma MergeIsJoin(existing: string, entries: seq<Entry>)
    requires ProperEntries(entries)
    ensures Merge(existing, entries) == Join(Kept(existing, entries) + EntryLines(Written(entries))) + "\n"
  {
    var kept, init, last := Kept(existing, entries), entries[..|entries| - 1], entries[|entries| - 1];
    assert kept + EntryLines(entries) == (kept + EntryLines(init)) + [last.Line()];
    TrimJoined(kept + EntryLines(init), last);
    assert Written(entries)[..|entries| - 1] == init;
    assert kept + EntryLines(Written(entries)) == (kept + EntryLines(init)) + [Trimmed(last).Line()];
  }

  lemma {:induction false} TrimKeepsLine(s: string)
    requires OneLine(s)
    ensures OneLine(TrimEnd(s))
  {
    if s != [] && IsSpace(s[|s| - 1]) {
      assert forall c :: c in s[..|s| - 1] ==> c in s;
      TrimKeepsLine(s[..|s| - 1]);
    }
  }

  lemma WrittenIsProper(entries: seq<Entry>)
    requires ProperEntries(entries)
    ensures forall i :: 0 <= i < |entries| ==> Written(entries)[i].key == entries[i].key
    ensures forall i :: 0 <= i < |entries| ==> OneLine(Written(entries)[i].Line())
  {
    var last := entries[|entries| - 1];
    TrimKeepsLine(last.value);
    forall i | 0 <= i < |entries| ensures OneLine(Written(entries)[i].Line()) {
      var e := Written(entries)[i];
      assert OneLine(e.value) && IsKey(e.key);
      forall c | c in e.Line() ensures c != '\n' {
        assert c in e.key || c == '=' || c in e.value;
      }
    }
  }

  lemma KeptIsProper(existing: string, entries: seq<Entry>)
    ensures forall l :: l in Kept(existing, entries) ==> OneLine(l) && !Managed(l, entries)
  {
    LinesHaveNoBreak(existing);
    UnmanagedMembers(Lines(existing), entries);
    var lines := Unmanaged(Lines(existing), entries);
    assert forall l :: l in DropLastEmpty(lines) ==> l in lines;
  }

  /** The lines of a merged file: the kept lines, then the entries, then an empty line. */
  lemma MergedLines(existing: string, entries: seq<Entry>)
    requires ProperEntries(entries)
    ensures Lines(Merge(existing, entries)) ==
            StripAll(Kept(existing, entries)) + StripAll(EntryLines(Written(entries))) + [[]]
  {
    var kept, written := Kept(existing, entries), EntryLines(Written(entries));
    MergeIsJoin(existing, entries);
    KeptIsProper(existing, entries);
    WrittenLines(entries);
    LinesOfJoined(kept, written);
  }

  lemma WrittenLines(entries: seq<Entry>)
    requires ProperEntries(entries)
    ensures EntryLines(Written(entries)) != [] && forall l :: l in EntryLines(Written(entries)) ==> OneLine(l)
  {
    WrittenIsProper(entries);
  }

  lemma LinesOfJoined(kept: seq<string>, written: seq<string>)
    requires written != [] && (forall l :: l in kept ==> OneLine(l)) && forall l :: l in written ==> OneLine(l)
    ensures Lines(Join(kept + written) + "\n") == StripAll(kept) + StripAll(written) + [[]]
  {
    StripConcat(kept, written);
    LinesOfJoin(kept + written);
  }

  lemma StripConcat(a: seq<string>, b: seq<string>)
    ensures StripAll(a + b) == StripAll(a) + StripAll(b)
  {
    forall k | 0 <= k < |a + b| ensures StripAll(a + b)[k] == (StripAll(a) + StripAll(b))[k] {
    }
  }

  lemma EntriesAreManaged(entries: seq<Entry>)
    requires ProperEntries(entries)
    ensures forall i :: 0 <= i < |entries| ==>
              KeyOf(StripAll(EntryLines(Written(entries)))[i]) == Some(entries[i].key)
    ensures forall l :: l in StripAll(EntryLines(Written(entries))) ==> Managed(l, entries)
  {
    WrittenIsProper(entries);
    var lines := StripAll(EntryLines(Written(entries)));
    forall i | 0 <= i < |entries| ensures KeyOf(lines[i]) == Some(entries[i].key) {
      KeyOfEntry(Written(entries)[i]);
      KeyOfStripped(Written(entries)[i].Line());
    }
    forall l | l in lines ensures Managed(l, entries) {
      var i :| 0 <= i < |lines| && lines[i] == l;
      assert entries[i].key == KeyOf(l).value;
    }
  }

  lemma KeptStaysUnmanaged(existing: string, entries: seq<Entry>)
    ensures forall l :: l in StripAll(Kept(existing, entries)) ==> !Managed(l, entries)
  {
    KeptIsProper(existing, entries);
    var kept := Kept(existing, entries);
    forall l | l in StripAll(kept) ensures !Managed(l, entries) {
      var i :| 0 <= i < |kept| && StripAll(kept)[i] == l;
      KeyOfStripped(kept[i]);
      assert kept[i] in kept;
    }
  }

  lemma UnmanagedOfMerged(kept: seq<string>, managed: seq<string>, entries: seq<Entry>)
    requires (forall l :: l in kept ==> !Managed(l, entries)) && forall l :: l in managed ==> Managed(l, entries)
    ensures DropLastEmpty(Unmanaged(kept + managed + [[]], entries)) == kept
  {
    UnmanagedConcat(kept + managed, [[]], entries);
    UnmanagedConcat(kept, managed, entries);
    UnmanagedAll(kept, entries);
    UnmanagedNone(managed, entries);
    UnmanagedAll([[]], entries);
    assert kept + [] + [[]] == kept + [[]];
  }

  /** What a second merge keeps is what the first kept, each line stripped of a carriage
      return at its end. */
  lemma KeptAgain(existing: string, entries: seq<Entry>)
    requires ProperEntries(entries)
    ensures Kept(Merge(existing, entries), entries) == StripAll(Kept(existing, entries))
  {
    var kept, managed := StripAll(Kept(existing, entries)), StripAll(EntryLines(Written(entries)));
    MergedLines(existing, entries);
    EntriesAreManaged(entries);
    KeptStaysUnmanaged(existing, entries);
    UnmanagedOfMerged(kept, managed, entries);
  }

  lemma {:induction false} JoinDiffers(a: seq<string>, tail: seq<string>)
    requires tail != []
    ensures |Join(StripAll(a) + tail)| <= |Join(a + tail)|
    ensures |Join(StripAll(a) + tail)| == |Join(a + tail)| <==> forall l :: l in a ==> !EndsInReturn(l)
  {
    if a == [] {
      assert StripAll(a) + tail == tail && a + tail == tail;
    } else {
      assert (a + tail)[1..] == a[1..] + tail;
      assert StripAll(a)[1..] == StripAll(a[1..]);
      assert (StripAll(a) + tail)[1..] == StripAll(a[1..]) + tail;
      JoinDiffers(a[1..], tail);
      assert forall l :: l in a <==> l == a[0] || l in a[1..];
    }
  }

  /** The main result, exactly when the merge is idempotent: if and only if no line it keeps
      ends in a carriage return that the line break did not take along. */
  lemma IdempotentExactly(existing: string, entries: seq<Entry>)
    requires ProperEntries(entries)
    ensures Merge(Merge(existing, entries), entries) == Merge(existing, entries)
            <==> forall l :: l in Kept(existing, entries) ==> !EndsInReturn(l)
  {
    var kept, tail := Kept(existing, entries), EntryLines(Written(entries));
    MergeIsJoin(existing, entries);
    MergeIsJoin(Merge(existing, entries), entries);
    KeptAgain(existing, entries);
    JoinDiffers(kept, tail);
    if forall l :: l in kept ==> !EndsInReturn(l) {
      assert StripAll(kept) == kept;
    }
  }

  /** Each carriage return is directly followed by a line feed. */
  predicate ReturnsBeforeBreaks(s: string) {
    forall i :: 0 <= i < |s| && s[i] == '\r' ==> i + 1 < |s| && s[i + 1] == '\n'
  }

  lemma {:induction false} CleanLines(s: string)
    requires ReturnsBeforeBreaks(s)
    ensures forall l :: l in Lines(s) ==> '\r' !in l
    decreases |s|
  {
    if s == [] {
    } else if s[0] == '\n' {
      CleanLines(s[1..]);
    } else if s[0] == '\r' {
      CleanLines(s[2..]);
    } else {
      CleanLines(s[1..]);
      var rest := Lines(s[1..]);
      assert rest[0] in rest && forall l :: l in rest[1..] ==> l in rest;
    }
  }

  /** On text whose carriage returns all belong to line breaks, merging is idempotent. */
  lemma IdempotentOnCleanText(existing: string, entries: seq<Entry>)
    requires ProperEntries(entries) && ReturnsBeforeBreaks(existing)
    ensures Merge(Merge(existing, entries), entries) == Merge(existing, entries)
  {
    CleanLines(existing);
    UnmanagedMembers(Lines(existing), entries);
    var lines := Unmanaged(Lines(existing), entries);
    forall l | l in Kept(existing, entries) ensures !EndsInReturn(l) {
      assert l in lines && l in Lines(existing);
    }
    IdempotentExactly(existing, entries);
  }

  // ---------- reading the result ----------

  /** The lines of a file that set this key. */
  function Setting(lines: seq<string>, key: string): seq<string> {
    if lines == [] then []
    else (if KeyOf(lines[0]) == Some(key) then [lines[0]] else []) + Setting(lines[1..], key)
  }

  lemma {:induction false} SettingConcat(a: seq<string>, b: seq<string>, key: string)
    ensures Setting(a + b, key) == Setting(a, key) + Setting(b, key)
  {
    if a == [] {
      assert a + b == b;
    } else {
      assert (a + b)[1..] == a[1..] + b;
      SettingConcat(a[1..], b, key);
    }
  }

  lemma {:induction false} SettingNone(lines: seq<string>, key: string)
    requires forall l :: l in lines ==> KeyOf(l) != Some(key)
    ensures Setting(lines, key) == []
  {
    if lines != [] {
      assert lines[0] in lines;
      SettingNone(lines[1..], key);
    }
  }

  lemma {:induction false} SettingOne(lines: seq<string>, key: string, i: nat)
    requires i < |lines| && forall k :: 0 <= k < |lines| ==> (KeyOf(lines[k]) == Some(key) <==> k == i)
    ensures Setting(lines, key) == [lines[i]]
  {
    assert lines == lines[..i] + ([lines[i]] + lines[i + 1..]);
    SettingConcat(lines[..i], [lines[i]] + lines[i + 1..], key);
    SettingNone(lines[..i], key);
    SettingNone(lines[i + 1..], key);
  }

  lemma SettingOfMerged(kept: seq<string>, managed: seq<string>, key: string, i: nat)
    requires forall l :: l in kept ==> KeyOf(l) != Some(key)
    requires i < |managed| && forall k :: 0 <= k < |managed| ==> (KeyOf(managed[k]) == Some(key) <==> k == i)
    ensures Setting(kept + managed + [[]], key) == [managed[i]]
  {
    SettingConcat(kept + managed, [[]], key);
    SettingConcat(kept, managed, key);
    SettingNone(kept, key);
    SettingNone([[]], key);
    SettingOne(managed, key, i);
  }

  /** In the merged file every managed key is set exactly once, to its new value; the last
      one's trailing white space is gone. */
  lemma ReadsBackOnce(existing: string, entries: seq<Entry>, i: nat)
    requires ProperEntries(entries) && i < |entries|
    ensures Setting(Lines(Merge(existing, entries)), entries[i].key) == [StripReturn(Written(entries)[i].Line())]
    ensures '\r' !in entries[i].value ==>
              Setting(Lines(Merge(existing, entries)), entries[i].key) ==
              [entries[i].key + "=" + if i == |entries| - 1 then TrimEnd(entries[i].value) else entries[i].value]
  {
    SetOnce(existing, entries, i);
    if '\r' !in entries[i].value {
      NoReturnInEntry(entries, i);
    }
  }

  lemma SetOnce(existing: string, entries: seq<Entry>, i: nat)
    requires ProperEntries(entries) && i < |entries|
    ensures Setting(Lines(Merge(existing, entries)), entries[i].key) == [StripReturn(Written(entries)[i].Line())]
  {
    var kept, managed := StripAll(Kept(existing, entries)), StripAll(EntryLines(Written(entries)));
    MergedLines(existing, entries);
    EntriesAreManaged(entries);
    KeptSetsNone(existing, entries, i);
    SettingOfMerged(kept, managed, entries[i].key, i);
  }

  lemma KeptSetsNone(existing: string, entries: seq<Entry>, i: nat)
    requires ProperEntries(entries) && i < |entries|
    ensures forall l :: l in StripAll(Kept(existing, entries)) ==> KeyOf(l) != Some(entries[i].key)
  {
    KeptStaysUnmanaged(existing, entries);
    forall l | l in StripAll(Kept(existing, entries)) ensures KeyOf(l) != Some(entries[i].key) {
      assert !Managed(l, entries);
    }
  }

  lemma NoReturnInEntry(entries: seq<Entry>, i: nat)
    requires ProperEntries(entries) && i < |entries| && '\r' !in entries[i].value
    ensures !EndsInReturn(Written(entries)[i].Line())
  {
    var e := Written(entries)[i];
    TrimIsPrefix(entries[i].value);
    assert e.value <= entries[i].value;
    assert '\r' !in e.value;
  }

  lemma {:induction false} TrimIsPrefix(s: string)
    ensures TrimEnd(s) <= s
  {
    if s != [] && IsSpace(s[|s| - 1]) {
      TrimIsPrefix(s[..|s| - 1]);
    }
  }

  /** Every unmanaged line of the original is still there, in order, followed by the
      entries; only one empty line at the end and carriage returns at line ends can go. */
  lemma UnmanagedLinesKept(existing: string, entries: seq<Entry>)
    requires ProperEntries(entries)
    ensures var merged := Lines(Merge(existing, entries));
            DropLastEmpty(Unmanaged(merged, entries)) == StripAll(DropLastEmpty(Unmanaged(Lines(existing), entries)))
    ensures ReturnsBeforeBreaks(existing) ==>
              DropLastEmpty(Unmanaged(Lines(Merge(existing, entries)), entries))
              == DropLastEmpty(Unmanaged(Lines(existing), entries))
  {
    KeptAgain(existing, entries);
    if ReturnsBeforeBreaks(existing) {
      CleanLines(existing);
      UnmanagedMembers(Lines(existing), entries);
      var kept := Kept(existing, entries);
      forall i | 0 <= i < |kept| ensures StripReturn(kept[i]) == kept[i] {
        assert kept[i] in Unmanaged(Lines(existing), entries);
      }
      assert StripAll(kept) == kept;
    }
  }

  /** A lone carriage return before a line break is enough to break idempotence. */
  lemma StrayReturnIsStripped() returns (existing: string, entries: seq<Entry>)
    ensures ProperEntries(entries) && Merge(Merge(existing, entries), entries) != Merge(existing, entries)
  {
    existing, entries := "a\r\r\n", [Entry("K", "v")];
    assert existing == "a\r\r" + "\n" + "";
    LinesCons("a\r\r", "");
    assert StripReturn("a\r\r") == "a\r\r"[..2] == "a\r";
    assert Lines(existing) == ["a\r", ""];
    UnmanagedAll(["a\r", ""], entries);
    assert ["a\r", ""][..1] == ["a\r"];
    assert Kept(existing, entries) == ["a\r"];
    assert "a\r" in Kept(existing, entries) && EndsInReturn("a\r");
    IdempotentExactly(existing, entries);
  }

  // ---------- which lines go ----------

  lemma {:induction false} KeyRunOf(key: string, rest: string)
    requires forall c :: c in key ==> KeyChar(c)
    ensures KeyRun(key + "=" + rest) == |key|
  {
    if key == [] {
      assert key + "=" + rest == "=" + rest;
    } else {
      assert key[0] in key && (key + "=" + rest)[1..] == key[1..] + "=" + rest;
      assert forall c :: c in key[1..] ==> c in key;
      KeyRunOf(key[1..], rest);
    }
  }

  /** A line is managed if and only if it begins with the key of an entry and an equals sign. */
  lemma ManagedExactly(line: string, entries: seq<Entry>)
    requires ProperEntries(entries)
    ensures Managed(line, entries) <==> exists i :: 0 <= i < |entries| && entries[i].key + "=" <= line
  {
    forall i | 0 <= i < |entries| ensures entries[i].key + "=" <= line <==> KeyOf(line) == Some(entries[i].key) {
      var key := entries[i].key;
      if key + "=" <= line {
        var rest := line[|key| + 1..];
        assert line == key + "=" + rest;
        KeyRunOf(key, rest);
        assert line[..|key|] == key;
      }
    }
  }

  /** How many of the first n lines are not managed. */
  function Rank(lines: seq<string>, entries: seq<Entry>, n: nat): nat
    requires n <= |lines|
  {
    if n == 0 then 0 else Rank(lines, entries, n - 1) + if Managed(lines[n - 1], entries) then 0 else 1
  }

  lemma {:induction false} RankTail(lines: seq<string>, entries: seq<Entry>, n: nat)
    requires 1 <= n <= |lines|
    ensures Rank(lines, entries, n) == Rank(lines[1..], entries, n - 1) + if Managed(lines[0], entries) then 0 else 1
  {
    if n > 1 {
      RankTail(lines, entries, n - 1);
      assert lines[1..][n - 2] == lines[n - 1];
    } else {
      assert Rank(lines, entries, 0) == 0 && Rank(lines[1..], entries, 0) == 0;
    }
  }

  lemma {:induction false} UnmanagedCount(lines: seq<string>, entries: seq<Entry>)
    ensures |Unmanaged(lines, entries)| == Rank(lines, entries, |lines|)
  {
    if lines != [] {
      UnmanagedCount(lines[1..], entries);
      RankTail(lines, entries, |lines|);
    }
  }

  lemma {:induction false} UnmanagedAt(lines: seq<string>, entries: seq<Entry>, i: nat)
    requires i < |lines| && !Managed(lines[i], entries)
    ensures Rank(lines, entries, i) < |Unmanaged(lines, entries)|
    ensures Unmanaged(lines, entries)[Rank(lines, entries, i)] == lines[i]
  {
    if i > 0 {
      assert lines[1..][i - 1] == lines[i];
      UnmanagedAt(lines[1..], entries, i - 1);
      RankTail(lines, entries, i);
    }
  }

  /** Every line that is not managed is kept, at the place its predecessors leave it, and
      nothing else is. */
  lemma UnmanagedExactly(lines: seq<string>, entries: seq<Entry>)
    ensures |Unmanaged(lines, entries)| == Rank(lines, entries, |lines|)
    ensures forall i :: 0 <= i < |lines| && !Managed(lines[i], entries) ==>
              var r := Rank(lines, entries, i); r < |Unmanaged(lines, entries)| && Unmanaged(lines, entries)[r] == lines[i]
  {
    UnmanagedCount(lines, entries);
    forall i | 0 <= i < |lines| && !Managed(lines[i], entries)
      ensures Rank(lines, entries, i) < |Unmanaged(lines, entries)|
      ensures Unmanaged(lines, entries)[Rank(lines, entries, i)] == lines[i]
    {
      UnmanagedAt(lines, entries, i);
    }
  }

  /** Of the lines that are not managed the merge keeps all but the last, and that one too
      unless it is empty. */
  lemma KeptExactly(existing: string, entries: seq<Entry>)
    ensures var lines, kept := Unmanaged(Lines(existing), entries), Kept(existing, entries);
            && (kept == lines || kept + [""] == lines)
            && (kept + [""] == lines <==> lines != [] && lines[|lines| - 1] == "")
  {
    var lines, kept := Unmanaged(Lines(existing), entries), Kept(existing, entries);
    if lines != [] {
      assert lines[..|lines| - 1] + [lines[|lines| - 1]] == lines;
    }
    if kept + [""] == lines {
      assert lines[|lines| - 1] == "";
    }
  }
}
