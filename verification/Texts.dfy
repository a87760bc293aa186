/** Human-authored text: trimming, and the check every required field goes through. */
module Texts {
  import opened Wrappers
  import opened Identities

  /** The characters that trimming removes. */
  predicate White(c: char) {
    || '\t' <= c <= '\r' || c == ' ' || c == '\U{A0}' || c == '\U{1680}' || '\U{2000}' <= c <= '\U{200A}'
    || c == '\U{2028}' || c == '\U{2029}' || c == '\U{202F}' || c == '\U{205F}' || c == '\U{3000}' || c == '\U{FEFF}'
  }

  /** Nothing but white space: what the stored form of a required text must not be. */
  predicate Blank(text: Text) {
    forall c :: c in text ==> White(c)
  }

  function TrimStart(text: Text): (r: Text)
    ensures |r| <= |text| && (r != [] ==> !White(r[0]))
    ensures Blank(r) == Blank(text)
  {
    if text == [] || !White(text[0]) then text else
    assert text == [text[0]] + text[1..];
    TrimStart(text[1..])
  }

  function TrimEnd(text: Text): (r: Text)
    ensures r <= text && (r != [] ==> !White(r[|r| - 1]))
    ensures Blank(r) == Blank(text)
  {
    if text == [] || !White(text[|text| - 1]) then text else
    assert text == text[..|text| - 1] + [text[|text| - 1]];
    TrimEnd(text[..|text| - 1])
  }

  function Trim(text: Text): (r: Text)
    ensures r == [] <==> Blank(text)
    ensures r != [] ==> !White(r[0]) && !White(r[|r| - 1])
  {
    TrimEnd(TrimStart(text))
  }

  datatype TextProblem = EmptyText | LongText

  /** The stored form of a required field: never blank and never longer than its limit. */
  function RequiredText(value: Text, maxLength: nat): (r: Result<Text, TextProblem>)
    ensures r.Ok? ==> !Blank(r.value) && 0 < |r.value| <= maxLength
    ensures r == Err(EmptyText) <==> Blank(value)
  {
    var text := Trim(value);
    if text == [] then Err(EmptyText)
    else if |text| > maxLength then Err(LongText)
    else Ok(text)
  }
}
