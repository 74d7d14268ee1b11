/** Task identifiers and the way a message body carries one. */
module TaskIds {
  import opened Prelude

  predicate IsHex(c: char) {
    '0' <= c <= '9' || 'a' <= c <= 'f' || 'A' <= c <= 'F'
  }

  /** The 8-4-4-4-12 hexadecimal shape of a UUID. */
  predicate IsUuid(s: string) {
    && |s| == 36
    && forall i :: 0 <= i < 36 ==> if i == 8 || i == 13 || i == 18 || i == 23 then s[i] == '-' else IsHex(s[i])
  }

  lemma UuidTrims(u: string)
    requires IsUuid(u)
    ensures Trim(u) == u && u != ""
  {
    assert IsHex(u[0]) && IsHex(u[35]);
    TrimFixed(u);
  }

  const LABEL := "task id:"

  /** Case-insensitive match of one character under Unicode simple case folding. */
  predicate Folds(c: char, lower: char) {
    || c == lower
    || ('a' <= lower <= 'z' && c as int == lower as int - 32)
    || (lower == 's' && c == '\U{017F}')
    || (lower == 'k' && c == '\U{212A}')
  }

  predicate HasLabel(s: string) {
    |LABEL| <= |s| && forall i :: 0 <= i < |LABEL| ==> Folds(s[i], LABEL[i])
  }

  /** The identifier after the leftmost label that is followed by one; empty when there is none. */
  function ExtractTaskId(content: string): string {
    var rest := if HasLabel(content) then TrimStart(content[|LABEL|..]) else "";
    if |rest| >= 36 && IsUuid(rest[..36]) then rest[..36]
    else if content == [] then ""
    else ExtractTaskId(content[1..])
  }

  /** A body that opens with the task's own header names exactly that task, whatever follows. */
  lemma ExtractStamped(u: string, tail: string)
    requires IsUuid(u)
    ensures ExtractTaskId("Task ID: " + u + tail) == u
  {
    var body := "Task ID: " + u + tail;
    assert body[..9] == "Task ID: ";
    assert HasLabel(body);
    var after := body[|LABEL|..];
    assert after == [' '] + (u + tail);
    assert after[1..] == u + tail;
    assert IsHex((u + tail)[0]);
    assert TrimStart(after) == u + tail;
    assert (u + tail)[..36] == u;
  }
}
