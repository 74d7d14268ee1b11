/**
  Setting a key in a TOML file, line by line: at top level, or inside one section. Reading a key
  is defined apart from writing it, and the two obey the laws of a lookup table.
 */
module TomlUpsert {
  import opened Prelude

  type Lines = seq<string>

  predicate IsHeader(line: string) {
    var t := Trim(line);
    t != "" && t[0] == '[' && t[|t| - 1] == ']'
  }

  /** The line assigns the key: it starts with the key and a space or an equals sign. */
  predicate Names(line: string, key: string) {
    key + " " <= Trim(line) || key + "=" <= Trim(line)
  }

  function Entry(key: string, value: string): string { key + " = " + value }

  // ---------- writing ----------

  function PutTop(lines: Lines, key: string, value: string): Lines {
    if lines == [] then [Entry(key, value)]
    else if IsHeader(lines[0]) then [Entry(key, value)] + lines
    else if Names(lines[0], key) then [Entry(key, value)] + lines[1..]
    else [lines[0]] + PutTop(lines[1..], key, value)
  }

  predicate HasSection(lines: Lines, header: string) {
    lines != [] && (Trim(lines[0]) == header || HasSection(lines[1..], header))
  }

  function PutSection(lines: Lines, header: string, key: string, value: string): Lines
    requires HasSection(lines, header)
  {
    if Trim(lines[0]) == header then [lines[0]] + PutTop(lines[1..], key, value)
    else [lines[0]] + PutSection(lines[1..], header, key, value)
  }

  function Spacer(lines: Lines): Lines {
    if lines != [] && Trim(lines[|lines| - 1]) != "" then [""] else []
  }

  function PutIn(lines: Lines, header: string, key: string, value: string): Lines {
    if HasSection(lines, header) then PutSection(lines, header, key, value)
    else lines + Spacer(lines) + [header, Entry(key, value)]
  }

  // ---------- reading ----------

  function AfterEquals(s: string): string {
    if s == [] then [] else if s[0] == '=' then s[1..] else AfterEquals(s[1..])
  }

  /** The text to the right of the equals sign. */
  function ValueOf(line: string): string { Trim(AfterEquals(line)) }

  /** The value of a key before the first section header. */
  function GetTop(lines: Lines, key: string): Option<string> {
    if lines == [] || IsHeader(lines[0]) then None
    else if Names(lines[0], key) then Some(ValueOf(lines[0]))
    else GetTop(lines[1..], key)
  }

  /** The value of a key in the first section with the given header. */
  function GetIn(lines: Lines, header: string, key: string): Option<string> {
    if lines == [] then None
    else if Trim(lines[0]) == header then GetTop(lines[1..], key)
    else GetIn(lines[1..], header, key)
  }

  // ---------- keys and entries ----------

  /** Keys the writer can find again: no space, no equals sign, no leading blank. */
  predicate GoodKey(key: string) {
    ' ' !in key && '=' !in key && (key != "" ==> !IsSpace(key[0]))
  }

  predicate GoodHeader(header: string) {
    header != "" && header[0] == '[' && header[|header| - 1] == ']'
  }

  lemma {:induction false} TrimEndKeeps(a: string, b: string)
    requires a != [] && !IsSpace(a[|a| - 1])
    ensures a <= TrimEnd(a + b)
    decreases |b|
  {
    var s := a + b;
    if b == [] {
      assert s == a;
    } else if IsSpace(s[|s| - 1]) {
      assert s[..|s| - 1] == a + b[..|b| - 1];
      TrimEndKeeps(a, b[..|b| - 1]);
    }
  }

  /** The entry, once trimmed, still starts with the key, a space and an equals sign. */
  lemma EntryNames(key: string, value: string)
    requires GoodKey(key)
    ensures Names(Entry(key, value), key)
    ensures key != "" ==> key + " =" <= Trim(Entry(key, value))
    ensures key == "" ==> "=" <= Trim(Entry(key, value))
  {
    var e := Entry(key, value);
    if key == "" {
      assert e[1..] == "= " + value;
      assert TrimStart(e) == TrimStart(e[1..]) == e[1..];
      assert e[1..] == "=" + (" " + value);
      TrimEndKeeps("=", " " + value);
    } else {
      assert e[0] == key[0];
      assert TrimStart(e) == e;
      assert e == (key + " =") + (" " + value);
      TrimEndKeeps(key + " =", " " + value);
      assert (key + " =")[..|key| + 1] == key + " ";
    }
  }

  /** A line names at most one key. */
  lemma NamesUnique(line: string, a: string, b: string)
    requires ' ' !in a && '=' !in a && ' ' !in b && '=' !in b
    requires Names(line, a) && Names(line, b)
    ensures a == b
  {
    var t := Trim(line);
    assert t[|a|] == ' ' || t[|a|] == '=';
    assert t[|b|] == ' ' || t[|b|] == '=';
    assert forall i :: 0 <= i < |a| ==> t[i] == a[i] && a[i] in a;
    assert forall i :: 0 <= i < |b| ==> t[i] == b[i] && b[i] in b;
    assert a == t[..|a|] && b == t[..|b|];
  }

  lemma {:induction false} AfterEqualsSkips(a: string, b: string)
    requires '=' !in a
    ensures AfterEquals(a + b) == AfterEquals(b)
  {
    if a == [] {
      assert a + b == b;
    } else {
      assert (a + b)[1..] == a[1..] + b;
      AfterEqualsSkips(a[1..], b);
    }
  }

  lemma TrimSkipsSpace(value: string)
    ensures Trim(" " + value) == Trim(value)
  {
    assert (" " + value)[1..] == value;
  }

  lemma EntryValue(key: string, value: string)
    requires '=' !in key
    ensures ValueOf(Entry(key, value)) == Trim(value)
  {
    assert Entry(key, value) == key + (" = " + value);
    AfterEqualsSkips(key, " = " + value);
    assert (" = " + value)[1..] == "= " + value;
    assert ("= " + value)[1..] == " " + value;
    TrimSkipsSpace(value);
  }

  lemma HeaderIsHeader(header: string)
    requires GoodHeader(header)
    ensures IsHeader(header) && Trim(header) == header
  {
    TrimFixed(header);
  }

  // ---------- laws of the top level ----------

  /** What was put is got, exactly when the written line does not read as a section header. */
  lemma {:induction false} TopGetPut(lines: Lines, key: string, value: string)
    requires GoodKey(key)
    ensures GetTop(PutTop(lines, key, value), key) == Some(Trim(value)) <==> !IsHeader(Entry(key, value))
  {
    EntryNames(key, value);
    EntryValue(key, value);
    if lines != [] && !IsHeader(lines[0]) && !Names(lines[0], key) {
      TopGetPut(lines[1..], key, value);
      assert ([lines[0]] + PutTop(lines[1..], key, value))[1..] == PutTop(lines[1..], key, value);
    }
  }

  /** The condition is not idle: a key that opens a bracket and a value that closes it are lost. */
  lemma BracketedEntryIsLost()
    ensures GoodKey("[a") && GetTop(PutTop([], "[a", "b]"), "[a") == None
  {
    TrimFixed("[a = b]");
    assert Entry("[a", "b]") == "[a = b]";
  }

  /** The last put wins, and so putting twice is putting once, exactly under the same condition. */
  lemma {:induction false} TopPutPut(lines: Lines, key: string, first: string, second: string)
    requires GoodKey(key)
    ensures PutTop(PutTop(lines, key, first), key, second) == PutTop(lines, key, second) <==>
              !IsHeader(Entry(key, first))
    ensures IsHeader(Entry(key, first)) ==>
              |PutTop(PutTop(lines, key, first), key, second)| == |PutTop(lines, key, second)| + 1
  {
    EntryNames(key, first);
    if lines != [] && !IsHeader(lines[0]) && !Names(lines[0], key) {
      TopPutPut(lines[1..], key, first, second);
      assert ([lines[0]] + PutTop(lines[1..], key, first))[1..] == PutTop(lines[1..], key, first);
    } else {
      var put := PutTop(lines, key, first);
      assert put[1..] == if lines == [] || IsHeader(lines[0]) then lines else lines[1..];
    }
  }

  /** The other key is first assigned at top level below the line that assigns the key. */
  predicate Below(lines: Lines, key: string, other: string) {
    && lines != [] && !IsHeader(lines[0])
    && if Names(lines[0], key) then GetTop(lines[1..], other).Some?
       else !Names(lines[0], other) && Below(lines[1..], key, other)
  }

  /**
    No other top-level key is affected, exactly unless the written line reads as a header and takes the place of a
    line above the first assignment of the other key.
   */
  lemma {:induction false} TopOtherKeys(lines: Lines, key: string, value: string, other: string)
    requires GoodKey(key)
    requires ' ' !in other && '=' !in other && other != key
    ensures GetTop(PutTop(lines, key, value), other) == GetTop(lines, other)
            <==> !(IsHeader(Entry(key, value)) && Below(lines, key, other))
  {
    EntryNames(key, value);
    if Names(Entry(key, value), other) { NamesUnique(Entry(key, value), key, other); }
    if lines == [] {
    } else if IsHeader(lines[0]) {
      assert ([Entry(key, value)] + lines)[1..] == lines;
    } else if Names(lines[0], key) {
      if Names(lines[0], other) { NamesUnique(lines[0], key, other); }
      assert ([Entry(key, value)] + lines[1..])[1..] == lines[1..];
    } else {
      TopOtherKeys(lines[1..], key, value, other);
      assert ([lines[0]] + PutTop(lines[1..], key, value))[1..] == PutTop(lines[1..], key, value);
    }
  }

  /** No section is affected, unless the written line is that section's header. */
  lemma {:induction false} TopKeepsSections(lines: Lines, key: string, value: string, header: string, other: string)
    requires GoodHeader(header) && Trim(Entry(key, value)) != header
    ensures GetIn(PutTop(lines, key, value), header, other) == GetIn(lines, header, other)
  {
    HeaderIsHeader(header);
    if lines == [] {
    } else if IsHeader(lines[0]) {
      assert ([Entry(key, value)] + lines)[1..] == lines;
    } else {
      assert Trim(lines[0]) != header;
      if Names(lines[0], key) {
        assert ([Entry(key, value)] + lines[1..])[1..] == lines[1..];
      } else {
        TopKeepsSections(lines[1..], key, value, header, other);
        assert ([lines[0]] + PutTop(lines[1..], key, value))[1..] == PutTop(lines[1..], key, value);
      }
    }
  }

  /** Such a line hides the section below it. */
  lemma BracketedEntryHidesSection()
    ensures GoodHeader("[a = b]") && Trim(Entry("[a", "b]")) == "[a = b]"
    ensures var lines := ["[a = b]", "x = 1"];
            && GetIn(lines, "[a = b]", "x") == Some("1")
            && GetIn(PutTop(lines, "[a", "b]"), "[a = b]", "x") == None
  {
    var header, lines := "[a = b]", ["[a = b]", "x = 1"];
    assert Entry("[a", "b]") == header;
    HeaderIsHeader(header);
    assert lines[1..] == ["x = 1"];
    EntryNames("x", "1");
    EntryValue("x", "1");
    assert Entry("x", "1") == "x = 1" && Trim("1") == "1";
    XIsNoHeader();
    assert GetTop(["x = 1"], "x") == Some("1");
    var put := PutTop(lines, "[a", "b]");
    assert put == [header] + lines && put[1..] == lines;
  }

  lemma XIsNoHeader()
    ensures !IsHeader("x = 1")
  {
    TrimFixed("x = 1");
  }

  // ---------- laws of a section ----------

  lemma {:induction false} SectionGetPut(lines: Lines, header: string, key: string, value: string)
    requires GoodKey(key) && HasSection(lines, header)
    ensures GetIn(PutSection(lines, header, key, value), header, key) == Some(Trim(value)) <==>
              !IsHeader(Entry(key, value))
  {
    if Trim(lines[0]) == header {
      TopGetPut(lines[1..], key, value);
      assert ([lines[0]] + PutTop(lines[1..], key, value))[1..] == PutTop(lines[1..], key, value);
    } else {
      SectionGetPut(lines[1..], header, key, value);
      var rest := PutSection(lines[1..], header, key, value);
      assert ([lines[0]] + rest)[1..] == rest;
    }
  }

  /** Lines appended after all others decide the lookup of a section that was absent. */
  lemma {:induction false} GetInAppended(lines: Lines, tail: Lines, header: string, key: string)
    requires !HasSection(lines, header)
    ensures GetIn(lines + tail, header, key) == GetIn(tail, header, key)
    ensures HasSection(lines + tail, header) <==> HasSection(tail, header)
  {
    if lines == [] {
      assert lines + tail == tail;
    } else {
      assert (lines + tail)[1..] == lines[1..] + tail;
      GetInAppended(lines[1..], tail, header, key);
    }
  }

  lemma NewSection(lines: Lines, header: string, key: string, value: string)
    requires GoodHeader(header) && GoodKey(key)
    ensures var added := Spacer(lines) + [header, Entry(key, value)];
            && HasSection(added, header)
            && (GetIn(added, header, key) == Some(Trim(value)) <==> !IsHeader(Entry(key, value)))
  {
    HeaderIsHeader(header);
    EntryNames(key, value);
    EntryValue(key, value);
    var pair := [header, Entry(key, value)];
    assert pair[1..] == [Entry(key, value)];
    assert [Entry(key, value)][1..] == [];
    if Spacer(lines) != [] {
      assert Trim("") == "";
      assert ([""] + pair)[1..] == pair;
    } else {
      assert [] + pair == pair;
    }
  }

  /** What was put into a section is got from it, exactly when the written line is not a header. */
  lemma SectionKeyGetPut(lines: Lines, header: string, key: string, value: string)
    requires GoodKey(key) && GoodHeader(header)
    ensures GetIn(PutIn(lines, header, key, value), header, key) == Some(Trim(value)) <==> !IsHeader(Entry(key, value))
  {
    if HasSection(lines, header) {
      SectionGetPut(lines, header, key, value);
    } else {
      var added := Spacer(lines) + [header, Entry(key, value)];
      assert lines + Spacer(lines) + [header, Entry(key, value)] == lines + added;
      GetInAppended(lines, added, header, key);
      NewSection(lines, header, key, value);
    }
  }

  lemma {:induction false} SectionPutPut(lines: Lines, header: string, key: string, first: string, second: string)
    requires GoodKey(key) && HasSection(lines, header)
    ensures HasSection(PutSection(lines, header, key, first), header)
    ensures var twice := PutSection(PutSection(lines, header, key, first), header, key, second);
            && (twice == PutSection(lines, header, key, second) <==> !IsHeader(Entry(key, first)))
            && (IsHeader(Entry(key, first)) ==> |twice| == |PutSection(lines, header, key, second)| + 1)
  {
    if Trim(lines[0]) == header {
      TopPutPut(lines[1..], key, first, second);
      assert ([lines[0]] + PutTop(lines[1..], key, first))[1..] == PutTop(lines[1..], key, first);
    } else {
      SectionPutPut(lines[1..], header, key, first, second);
      var rest := PutSection(lines[1..], header, key, first);
      assert ([lines[0]] + rest)[1..] == rest;
    }
  }

  /** Lines in front that do not open the section do not matter. */
  lemma {:induction false} PutSectionAppended(lines: Lines, tail: Lines, header: string, key: string, value: string)
    requires !HasSection(lines, header) && HasSection(tail, header)
    ensures HasSection(lines + tail, header)
    ensures PutSection(lines + tail, header, key, value) == lines + PutSection(tail, header, key, value)
  {
    if lines == [] {
      assert lines + tail == tail;
    } else {
      assert (lines + tail)[1..] == lines[1..] + tail;
      PutSectionAppended(lines[1..], tail, header, key, value);
    }
  }

  /** The last put into a section wins, and so putting twice is putting once, exactly under the same condition. */
  lemma SectionKeyPutPut(lines: Lines, header: string, key: string, first: string, second: string)
    requires GoodKey(key) && GoodHeader(header)
    ensures PutIn(PutIn(lines, header, key, first), header, key, second) == PutIn(lines, header, key, second)
            <==> !IsHeader(Entry(key, first))
  {
    if HasSection(lines, header) {
      SectionPutPut(lines, header, key, first, second);
    } else {
      HeaderIsHeader(header);
      EntryNames(key, first);
      var front := lines + Spacer(lines);
      assert !HasSection(front, header) by {
        GetInAppended(lines, Spacer(lines), header, key);
        assert Trim("") == "";
      }
      var pair := [header, Entry(key, first)];
      assert pair[1..] == [Entry(key, first)] && [Entry(key, first)][1..] == [];
      PutSectionAppended(front, pair, header, key, second);
      if IsHeader(Entry(key, first)) {
        assert PutTop([Entry(key, first)], key, second) == [Entry(key, second), Entry(key, first)];
        assert |PutSection(pair, header, key, second)| == 3;
      } else {
        assert PutTop([Entry(key, first)], key, second) == [Entry(key, second)];
        assert PutSection(pair, header, key, second) == [header, Entry(key, second)];
      }
    }
  }

  // ---------- what a section put leaves alone ----------

  lemma {:induction false} GetTopAppended(lines: Lines, tail: Lines, key: string)
    requires GetTop(tail, key).None?
    ensures GetTop(lines + tail, key) == GetTop(lines, key)
  {
    if lines == [] {
      assert lines + tail == tail;
    } else {
      assert (lines + tail)[1..] == lines[1..] + tail;
      if !IsHeader(lines[0]) && !Names(lines[0], key) { GetTopAppended(lines[1..], tail, key); }
    }
  }

  lemma AddedIsClosed(lines: Lines, header: string, entry: string, key: string)
    requires GoodHeader(header)
    ensures GetTop(Spacer(lines) + [header, entry], key).None?
  {
    HeaderIsHeader(header);
    var pair := [header, entry];
    assert GetTop(pair, key).None?;
    if Spacer(lines) != [] {
      assert Trim("") == "";
      assert ([""] + pair)[1..] == pair;
    } else {
      assert [] + pair == pair;
    }
  }

  lemma {:induction false} PutSectionKeepsTop(lines: Lines, header: string, key: string, value: string, other: string)
    requires GoodHeader(header) && HasSection(lines, header)
    ensures GetTop(PutSection(lines, header, key, value), other) == GetTop(lines, other)
  {
    if Trim(lines[0]) == header {
      assert IsHeader(lines[0]);
    } else if !IsHeader(lines[0]) && !Names(lines[0], other) {
      PutSectionKeepsTop(lines[1..], header, key, value, other);
      var rest := PutSection(lines[1..], header, key, value);
      assert ([lines[0]] + rest)[1..] == rest;
    }
  }

  /** A section put changes no top-level key. */
  lemma SectionKeepsTop(lines: Lines, header: string, key: string, value: string, other: string)
    requires GoodHeader(header)
    ensures GetTop(PutIn(lines, header, key, value), other) == GetTop(lines, other)
  {
    if HasSection(lines, header) {
      PutSectionKeepsTop(lines, header, key, value, other);
    } else {
      var added := Spacer(lines) + [header, Entry(key, value)];
      assert lines + Spacer(lines) + [header, Entry(key, value)] == lines + added;
      AddedIsClosed(lines, header, Entry(key, value), other);
      GetTopAppended(lines, added, other);
    }
  }

  /** The same within the first section with the given header. */
  predicate BelowIn(lines: Lines, header: string, key: string, other: string) {
    lines != [] && if Trim(lines[0]) == header then Below(lines[1..], key, other)
    else BelowIn(lines[1..], header, key, other)
  }

  lemma {:induction false} NotBelowIn(lines: Lines, header: string, key: string, other: string)
    requires !HasSection(lines, header)
    ensures !BelowIn(lines, header, key, other)
  {
    if lines != [] { NotBelowIn(lines[1..], header, key, other); }
  }

  lemma {:induction false} PutSectionKeepsOthers(lines: Lines, header: string, key: string, value: string,
                                                 section: string, other: string)
    requires GoodKey(key) && GoodHeader(header) && GoodHeader(section) && HasSection(lines, header)
    requires if section == header then other != key && ' ' !in other
             && '=' !in other else Trim(Entry(key, value)) != section
    ensures GetIn(PutSection(lines, header, key, value), section, other) == GetIn(lines, section, other)
            <==> !(section == header && IsHeader(Entry(key, value)) && BelowIn(lines, header, key, other))
  {
    if Trim(lines[0]) == header {
      var rest := PutTop(lines[1..], key, value);
      assert ([lines[0]] + rest)[1..] == rest;
      if section == header {
        TopOtherKeys(lines[1..], key, value, other);
      } else {
        TopKeepsSections(lines[1..], key, value, section, other);
      }
    } else {
      var rest := PutSection(lines[1..], header, key, value);
      assert ([lines[0]] + rest)[1..] == rest;
      if Trim(lines[0]) == section {
        PutSectionKeepsTop(lines[1..], header, key, value, other);
      } else {
        PutSectionKeepsOthers(lines[1..], header, key, value, section, other);
      }
    }
  }

  lemma {:induction false} GetInUnextended(lines: Lines, tail: Lines, section: string, key: string)
    requires GetTop(tail, key).None? && GetIn(tail, section, key).None?
    ensures GetIn(lines + tail, section, key) == GetIn(lines, section, key)
  {
    if lines == [] {
      assert lines + tail == tail;
    } else {
      assert (lines + tail)[1..] == lines[1..] + tail;
      if Trim(lines[0]) == section {
        GetTopAppended(lines[1..], tail, key);
      } else {
        GetInUnextended(lines[1..], tail, section, key);
      }
    }
  }

  lemma AddedNamesOneKey(lines: Lines, header: string, key: string, value: string, section: string, other: string)
    requires GoodKey(key) && GoodHeader(header) && GoodHeader(section)
    requires if section == header then other != key && ' ' !in other
             && '=' !in other else Trim(Entry(key, value)) != section
    ensures GetIn(Spacer(lines) + [header, Entry(key, value)], section, other).None?
  {
    HeaderIsHeader(header); HeaderIsHeader(section);
    EntryNames(key, value);
    var e := Entry(key, value);
    if section == header && Names(e, other) { NamesUnique(e, key, other); }
    var pair := [header, e];
    assert pair[1..] == [e] && [e][1..] == [];
    assert section != header ==> GetIn([e], section, other).None?;
    assert section == header ==> GetTop([e], other).None?;
    assert GetIn(pair, section, other).None?;
    if Spacer(lines) != [] {
      assert Trim("") == "";
      assert ([""] + pair)[1..] == pair;
    } else {
      assert [] + pair == pair;
    }
  }

  /**
    A section put changes no key of any other section, unless the written line is that section's header, and no
    other key of its own section, exactly unless the written line reads as a header and takes the place of a line
    above the first assignment of the other key.
   */
  lemma SectionKeepsOthers(lines: Lines, header: string, key: string, value: string, section: string, other: string)
    requires GoodKey(key) && GoodHeader(header) && GoodHeader(section)
    requires if section == header then other != key && ' ' !in other
             && '=' !in other else Trim(Entry(key, value)) != section
    ensures GetIn(PutIn(lines, header, key, value), section, other) == GetIn(lines, section, other)
            <==> !(section == header && IsHeader(Entry(key, value)) && BelowIn(lines, header, key, other))
  {
    if HasSection(lines, header) {
      PutSectionKeepsOthers(lines, header, key, value, section, other);
    } else {
      var added := Spacer(lines) + [header, Entry(key, value)];
      assert lines + Spacer(lines) + [header, Entry(key, value)] == lines + added;
      AddedIsClosed(lines, header, Entry(key, value), other);
      AddedNamesOneKey(lines, header, key, value, section, other);
      GetInUnextended(lines, added, section, other);
      NotBelowIn(lines, header, key, other);
    }
  }

  // ---------- lines ----------

  /** A line that named the key replaced, or one line added, at position `at`. */
  predicate OneLineEdit(before: Lines, after: Lines, key: string, entry: string, at: nat) {
    || (at < |before| && Names(before[at], key) && after == before[at := entry])
    || (at <= |before| && after == before[..at] + [entry] + before[at..])
  }

  lemma EditCons(head: string, before: Lines, after: Lines, key: string, entry: string, at: nat)
    requires OneLineEdit(before, after, key, entry, at)
    ensures OneLineEdit([head] + before, [head] + after, key, entry, at + 1)
  {
    var b := [head] + before;
    if at < |before| && Names(before[at], key) && after == before[at := entry] {
      assert [head] + after == b[at + 1 := entry];
    } else {
      assert b[..at + 1] == [head] + before[..at] && b[at + 1..] == before[at..];
      assert [head] + after == b[..at + 1] + [entry] + b[at + 1..];
    }
  }

  /** Every other line stays where it was, in order. */
  lemma {:induction false} TopEditsOneLine(lines: Lines, key: string, value: string) returns (at: nat)
    ensures OneLineEdit(lines, PutTop(lines, key, value), key, Entry(key, value), at)
  {
    at := 0;
    if lines != [] && !IsHeader(lines[0]) && !Names(lines[0], key) {
      var k := TopEditsOneLine(lines[1..], key, value);
      EditCons(lines[0], lines[1..], PutTop(lines[1..], key, value), key, Entry(key, value), k);
      assert [lines[0]] + lines[1..] == lines;
      at := k + 1;
    } else if lines != [] && !IsHeader(lines[0]) {
      assert [Entry(key, value)] + lines[1..] == lines[0 := Entry(key, value)];
    } else {
      assert [Entry(key, value)] + lines == lines[..0] + [Entry(key, value)] + lines[0..];
    }
  }

  lemma {:induction false} SectionEditsOneLine(lines: Lines, header: string, key: string, value: string)
    returns (at: nat)
    requires HasSection(lines, header)
    ensures OneLineEdit(lines, PutIn(lines, header, key, value), key, Entry(key, value), at)
  {
    assert [lines[0]] + lines[1..] == lines;
    if Trim(lines[0]) == header {
      var k := TopEditsOneLine(lines[1..], key, value);
      EditCons(lines[0], lines[1..], PutTop(lines[1..], key, value), key, Entry(key, value), k);
      at := k + 1;
    } else {
      var k := SectionEditsOneLine(lines[1..], header, key, value);
      EditCons(lines[0], lines[1..], PutSection(lines[1..], header, key, value), key, Entry(key, value), k);
      at := k + 1;
    }
  }

  // ---------- the scans as they run ----------

  lemma {:induction false} PutTopSkips(lines: Lines, i: nat, key: string, value: string)
    requires i <= |lines|
    requires forall j :: 0 <= j < i ==> !IsHeader(lines[j]) && !Names(lines[j], key)
    ensures PutTop(lines, key, value) == lines[..i] + PutTop(lines[i..], key, value)
  {
    if i == 0 {
      assert lines[0..] == lines;
    } else {
      assert lines[1..][i - 1..] == lines[i..];
      assert [lines[0]] + lines[1..][..i - 1] == lines[..i];
      PutTopSkips(lines[1..], i - 1, key, value);
      var head, rest := lines[1..][..i - 1], PutTop(lines[i..], key, value);
      assert [lines[0]] + (head + rest) == [lines[0]] + head + rest;
    }
  }

  method UpsertTopLevelKey(content: Lines, key: string, value: string) returns (lines: Lines)
    ensures lines == PutTop(content, key, value)
  {
    lines := content;
    var entry := Entry(key, value);
    for i := 0 to |lines|
      invariant lines == content
      invariant forall j :: 0 <= j < i ==> !IsHeader(lines[j]) && !Names(lines[j], key)
    {
      PutTopSkips(lines, i, key, value);
      assert lines[i..][0] == lines[i] && lines[i..][1..] == lines[i + 1..];
      if IsHeader(lines[i]) {
        assert lines[..i] + ([entry] + lines[i..]) == lines[..i] + [entry] + lines[i..];
        lines := lines[..i] + [entry] + lines[i..];
        return;
      }
      if Names(lines[i], key) {
        assert lines[i := entry] == lines[..i] + ([entry] + lines[i + 1..]);
        lines := lines[i := entry];
        return;
      }
    }
    PutTopSkips(lines, |lines|, key, value);
    assert lines[..|lines|] == lines && lines[|lines|..] == [];
    lines := lines + [entry];
  }

  lemma {:induction false} PutSectionSkips(lines: Lines, i: nat, header: string, key: string, value: string)
    requires i < |lines| && Trim(lines[i]) == header
    requires forall j :: 0 <= j < i ==> Trim(lines[j]) != header
    ensures HasSection(lines, header)
    ensures PutSection(lines, header, key, value) == lines[..i + 1] + PutTop(lines[i + 1..], key, value)
  {
    if i == 0 {
      assert lines[..1] == [lines[0]];
    } else {
      var rest := lines[1..];
      PutSectionSkips(rest, i - 1, header, key, value);
      assert rest[i..] == lines[i + 1..];
      assert [lines[0]] + rest[..i] == lines[..i + 1];
      var put := PutTop(lines[i + 1..], key, value);
      assert [lines[0]] + (rest[..i] + put) == ([lines[0]] + rest[..i]) + put;
    }
  }

  lemma {:induction false} NoSection(lines: Lines, header: string)
    requires forall j :: 0 <= j < |lines| ==> Trim(lines[j]) != header
    ensures !HasSection(lines, header)
  {
    if lines != [] { NoSection(lines[1..], header); }
  }

  /** The first line of the section and the end of the section. */
  method FindSection(lines: Lines, header: string) returns (start: Option<nat>, end: nat)
    ensures start.None? ==> !HasSection(lines, header)
    ensures start.Some? ==>
              && start.value < end <= |lines| && Trim(lines[start.value]) == header
              && (forall j :: 0 <= j < start.value ==> Trim(lines[j]) != header)
              && (forall j :: start.value < j < end ==> !IsHeader(lines[j]))
              && (end < |lines| ==> IsHeader(lines[end]))
  {
    end := |lines|;
    for i := 0 to |lines|
      invariant forall j :: 0 <= j < i ==> Trim(lines[j]) != header
    {
      if Trim(lines[i]) == header {
        for k := i + 1 to |lines|
          invariant forall j :: i < j < k ==> !IsHeader(lines[j])
        {
          if IsHeader(lines[k]) {
            return Some(i), k;
          }
        }
        return Some(i), |lines|;
      }
    }
    NoSection(lines, header);
    return None, end;
  }

  method UpsertKeyInSection(content: Lines, header: string, key: string, value: string) returns (lines: Lines)
    ensures lines == PutIn(content, header, key, value)
  {
    lines := content;
    var start, end := FindSection(lines, header);
    var entry := Entry(key, value);
    if start.None? {
      if |lines| > 0 && Trim(lines[|lines| - 1]) != "" {
        lines := lines + [""];
      }
      lines := lines + [header];
      lines := lines + [entry];
      assert lines == content + Spacer(content) + [header, entry];
      return;
    }
    PutSectionSkips(lines, start.value, header, key, value);
    lines := UpsertBetween(lines, start.value + 1, end, key, value);
  }

  lemma SpliceReplace(lines: Lines, first: nat, i: nat, entry: string)
    requires first <= i < |lines|
    ensures var body := lines[first..];
            && body[i - first..] == [lines[i]] + lines[i + 1..]
            && body[i - first..][1..] == lines[i + 1..]
            && lines[i := entry] == lines[..first] + (body[..i - first] + ([entry] + lines[i + 1..]))
  {}

  lemma SpliceInsert(lines: Lines, first: nat, end: nat, entry: string)
    requires first <= end <= |lines|
    ensures var body := lines[first..];
            && body[end - first..] == lines[end..]
            && lines[..end] + [entry] + lines[end..]
               == lines[..first] + (body[..end - first] + ([entry] + lines[end..]))
            && [entry] + [] == [entry]
  {}

  /** The key replaced among the lines from `first` up to `end`, or added at `end`. */
  method UpsertBetween(content: Lines, first: nat, end: nat, key: string, value: string) returns (lines: Lines)
    requires first <= end <= |content|
    requires forall j :: first <= j < end ==> !IsHeader(content[j])
    requires end < |content| ==> IsHeader(content[end])
    ensures lines == content[..first] + PutTop(content[first..], key, value)
  {
    lines := content;
    var entry := Entry(key, value);
    ghost var body := lines[first..];
    for i := first to end
      invariant lines == content
      invariant forall j :: first <= j < i ==> !Names(lines[j], key)
    {
      if Names(lines[i], key) {
        PutTopSkips(body, i - first, key, value);
        SpliceReplace(lines, first, i, entry);
        lines := lines[i := entry];
        return;
      }
    }
    PutTopSkips(body, end - first, key, value);
    SpliceInsert(lines, first, end, entry);
    lines := lines[..end] + [entry] + lines[end..];
  }
}
