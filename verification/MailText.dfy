/** From the text of a mail to the words of its author (src/mailtg_bridge/mail_in.py:46-52, 72-77).
    Lines are already split and their inner blanks squeezed. */
module MailText {

  /** A line stays if it is not blank, or if the line kept before it is not. */
  function Collapsed(lines: seq<string>, textBefore: bool): seq<string> {
    if lines == [] then []
    else if lines[0] != "" then [lines[0]] + Collapsed(lines[1..], true)
    else if textBefore then [""] + Collapsed(lines[1..], false)
    else Collapsed(lines[1..], false)
  }

  method CollapseBlanks(lines: seq<string>) returns (out: seq<string>)
    ensures out == Collapsed(lines, false)
  {
    out := [];
    assert lines[0..] == lines;
    for i := 0 to |lines|
      invariant out + Collapsed(lines[i..], out != [] && out[|out| - 1] != "") == Collapsed(lines, false)
    {
      assert lines[i..][0] == lines[i] && lines[i..][1..] == lines[i + 1..];
      if lines[i] != "" || (out != [] && out[|out| - 1] != "") {
        out := out + [lines[i]];
      }
    }
  }

  function Words(lines: seq<string>): seq<string> {
    if lines == [] then [] else (if lines[0] != "" then [lines[0]] else []) + Words(lines[1..])
  }

  /** Every line with text stays, in order; blank lines stay only one at a time, after a line with text;
      and doing it again changes nothing. */
  lemma {:induction false} CollapsingKeepsTheText(lines: seq<string>, textBefore: bool)
    ensures var out := Collapsed(lines, textBefore);
            && Words(out) == Words(lines)
            && (forall i :: 0 <= i < |out| && out[i] == "" ==> if i == 0 then textBefore else out[i - 1] != "")
            && Collapsed(out, textBefore) == out
  {
    if lines != [] {
      var out := Collapsed(lines, textBefore);
      CollapsingKeepsTheText(lines[1..], lines[0] != "");
      if lines[0] != "" || textBefore {
        assert out[1..] == Collapsed(lines[1..], lines[0] != "");
      }
    }
  }

  function Blanks(n: nat): seq<string> { seq(n, _ => "") }

  predicate EndsInText(lines: seq<string>, textBefore: bool) {
    if lines == [] then textBefore else lines[|lines| - 1] != ""
  }

  lemma {:induction false} CollapsedConcat(a: seq<string>, b: seq<string>, textBefore: bool)
    ensures Collapsed(a + b, textBefore) == Collapsed(a, textBefore) + Collapsed(b, EndsInText(a, textBefore))
    decreases |a|
  {
    if a == [] {
      assert a + b == b;
    } else {
      assert (a + b)[1..] == a[1..] + b;
      CollapsedConcat(a[1..], b, a[0] != "");
    }
  }

  lemma {:induction false} BlanksCollapse(n: nat, textBefore: bool)
    ensures Collapsed(Blanks(n), textBefore) == if n > 0 && textBefore then [""] else []
  {
    if n > 0 {
      assert Blanks(n)[1..] == Blanks(n - 1);
      BlanksCollapse(n - 1, false);
    }
  }

  /** After a line with text, blank lines in a row become one, and none becomes none. */
  lemma {:induction false} BlanksBecomeOne(a: seq<string>, text: string, n: nat, b: seq<string>)
    requires text != ""
    ensures Collapsed(a + [text] + Blanks(n) + b, false)
            == Collapsed(a + [text], false) + (if n == 0 then [] else [""]) + Collapsed(b, n == 0)
  {
    var head := a + [text];
    CollapsedConcat(head + Blanks(n), b, false);
    CollapsedConcat(head, Blanks(n), false);
    BlanksCollapse(n, true);
    if n == 0 { assert head + Blanks(0) == head; }
  }

  /** The lines before the first that looks like the head of a quotation, whatever looks like that. */
  method StripQuotedTail(lines: seq<string>, isTail: string -> bool) returns (kept: seq<string>)
    ensures kept <= lines && forall l :: l in kept ==> !isTail(l)
    ensures kept == lines || isTail(lines[|kept|])
  {
    kept := [];
    for i := 0 to |lines|
      invariant kept == lines[..i] && forall l :: l in kept ==> !isTail(l)
    {
      if isTail(lines[i]) { return; }
      assert lines[..i + 1] == lines[..i] + [lines[i]];
      kept := kept + [lines[i]];
    }
  }
}
