/** The code editor's Tab key: the selection is replaced by four spaces and
    the caret is placed just after them. */
module Editor {

  const Indent := "    "

  /** The text area: its text and its selection `[selStart, selEnd)`, which
      the browser keeps ordered and inside the text. */
  datatype TextArea = TextArea(text: string, selStart: nat, selEnd: nat)

  predicate WellFormed(e: TextArea) {
    e.selStart <= e.selEnd <= |e.text|
  }

  /** The editor after Tab. The text outside the old selection is kept in
      order, the selection itself is gone, four spaces stand where it was,
      and the selection collapses to a caret right after them. */
  function PressTab(e: TextArea): (e': TextArea)
    requires WellFormed(e)
    ensures WellFormed(e')
    ensures e'.selStart == e'.selEnd == e.selStart + |Indent|
    ensures |e'.text| == |e.text| - (e.selEnd - e.selStart) + |Indent|
    ensures e'.text[e.selStart..e'.selStart] == Indent
    ensures e'.text[..e.selStart] + e'.text[e'.selEnd..] == e.text[..e.selStart] + e.text[e.selEnd..]
  {
    var text := e.text[..e.selStart] + Indent + e.text[e.selEnd..];
    assert text[..e.selStart] == e.text[..e.selStart];
    assert text[e.selStart + |Indent|..] == e.text[e.selEnd..];
    TextArea(text, e.selStart + |Indent|, e.selStart + |Indent|)
  }
}
