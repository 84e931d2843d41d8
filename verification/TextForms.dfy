/** The forms of texts and ids that the read models recognise, told by their pieces (src/lib/items.ts). */
module TextForms {
  import opened Options
  import opened Messages
  import opened Items

  /** The first `c` of a text with something before and behind it. */
  lemma {:induction false} FirstAt(before: string, c: char, behind: string)
    requires c !in before
    ensures IndexOfChar(before + [c] + behind, c) == |before|
  {
    var text := before + [c] + behind;
    if before != "" {
      assert text[1..] == before[1..] + [c] + behind;
      FirstAt(before[1..], c, behind);
    }
  }

  // ----- Who sent a notification -------------------------------------------------------------

  ghost predicate FromTeammate(text: string, name: string) {
    name != "" && ']' !in name && "[teammate " + name + "]" <= text
  }

  lemma TeammateIs(text: string, name: string)
    requires FromTeammate(text, name)
    ensures UserSource(text) == Some("teammate " + name) && text[2] == 'e'
  {
    var whole, rest := "[teammate " + name + "]", text[10..];
    assert whole == text[..|whole|];
    forall i | 0 <= i < |whole| ensures text[i] == whole[i] { assert text[..|whole|][i] == text[i]; }
    assert forall i :: 0 <= i < |name| ==> rest[i] == whole[10 + i];
    var behind := rest[|name| + 1..];
    assert rest[|name|] == text[10 + |name|] == whole[10 + |name|] == ']';
    assert rest == name + [']'] + behind;
    FirstAt(name, ']', behind);
    assert rest[..|name|] == name;
    assert "[teammate " <= text by { assert text[..10] == whole[..10] == "[teammate "; }
  }

  lemma TeammateNamed(text: string)
    requires "[teammate " <= text && 0 < IndexOfChar(text[10..], ']') < |text| - 10
    ensures FromTeammate(text, text[10..][..IndexOfChar(text[10..], ']')])
  {
    var rest := text[10..];
    var i := IndexOfChar(rest, ']');
    assert rest[..i] + "]" == rest[..i + 1];
    assert text == "[teammate " + rest;
    assert "[teammate " + (rest[..i] + "]") == text[..10 + i + 1];
    assert "[teammate " + rest[..i] + "]" == "[teammate " + (rest[..i] + "]");
  }

  /** A text names a sender exactly when it begins with "[teammate NAME]" or "[task notification]". */
  lemma SenderIs(text: string, sender: string)
    ensures UserSource(text) == Some(sender) <==>
      (exists name :: FromTeammate(text, name) && sender == "teammate " + name) ||
      ("[task notification]" <= text && sender == "task notification")
  {
    assert "[task notification]" <= text ==> text[2] == "[task notification]"[2] == 'a';
    if name :| FromTeammate(text, name) {
      TeammateIs(text, name);
      forall other | FromTeammate(text, other) ensures "teammate " + other == "teammate " + name { TeammateIs(text, other); }
    } else if "[teammate " <= text && 0 < IndexOfChar(text[10..], ']') < |text| - 10 {
      TeammateNamed(text);
    }
  }

  // ----- Summaries and streams -----------------------------------------------------------------

  /** A summary is the first line of the text, cut behind 120 characters. */
  lemma FirstLineIs(line: string, behind: string)
    requires '\n' !in line
    ensures FirstLine(line + "\n" + behind) == if |line| <= 120 then line else line[..120] + "\U{2026}"
    ensures FirstLine(line) == if |line| <= 120 then line else line[..120] + "\U{2026}"
  {
    FirstAt(line, '\n', behind);
    assert (line + "\n" + behind)[..|line|] == line;
    assert IndexOfChar(line, '\n') == |line| && line[..|line|] == line;
  }

  predicate IsId(id: string) {
    id != "" && forall i :: 0 <= i < |id| ==> 'A' <= id[i] <= 'Z' || 'a' <= id[i] <= 'z' || '0' <= id[i] <= '9' || id[i] in "_-"
  }

  predicate IsNumber(digits: string) {
    digits != "" && forall i :: 0 <= i < |digits| ==> '0' <= digits[i] <= '9'
  }

  /** An id names an iteration of a stream exactly when it is the id of the stream, ":t" and a number. */
  lemma StreamIs(id: string, stream: string)
    ensures Stream(id) == Some(stream) <==> IsId(stream) && exists digits :: IsNumber(digits) && id == stream + ":t" + digits
  {
    if Stream(id) == Some(stream) { StreamFound(id); }
    if IsId(stream) {
      if digits :| IsNumber(digits) && id == stream + ":t" + digits { StreamNamed(stream, digits); }
    }
    hide Stream, IsId, IsNumber;
  }

  lemma StreamFound(id: string)
    requires Stream(id).Some?
    ensures IsId(Stream(id).value) && |Stream(id).value| + 2 <= |id|
    ensures var digits := id[|Stream(id).value| + 2..]; IsNumber(digits) && id == Stream(id).value + ":t" + digits
  {
    var stream := Stream(id).value;
    assert forall i :: 0 <= i < |stream| ==> stream[i] == id[i];
  }

  lemma StreamNamed(stream: string, digits: string)
    requires IsId(stream) && IsNumber(digits)
    ensures Stream(stream + ":t" + digits) == Some(stream)
  {
    var id := stream + ":t" + digits;
    assert id == stream + [':'] + ("t" + digits);
    FirstAt(stream, ':', "t" + digits);
    assert forall i :: 0 <= i < |stream| ==> id[i] == stream[i];
    assert forall i :: |stream| + 2 <= i < |id| ==> id[i] == digits[i - |stream| - 2];
    assert id[|stream| + 1] == 't' && id[..|stream|] == stream;
  }
}
