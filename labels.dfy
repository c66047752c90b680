/** The label handling every statistical engine repeats: reading a class name by
    a computed index (JavaScript yields `undefined` outside the array) and the
    translator from the trained label to the displayed word. */
module Labels {
  import opened Wrappers

  /** `classes[i]`, `undefined` (None) when `i` is outside the array. */
  function ClassAt(classes: seq<string>, i: int): (r: Option<string>)
    ensures r.Some? <==> 0 <= i < |classes|
    ensures r.Some? ==> r.value == classes[i]
  {
    if 0 <= i < |classes| then Some(classes[i]) else None
  }

  /** `{ incorrect: "Incorreto", correct: "Correto" }[name]`; any other label,
      or a missing one, yields `undefined`. */
  function TranslateLabel(name: Option<string>): (r: Option<string>)
    ensures r == Some("Incorreto") <==> name == Some("incorrect")
    ensures r == Some("Correto") <==> name == Some("correct")
    ensures r.None? <==> name != Some("incorrect") && name != Some("correct")
  {
    if name == Some("incorrect") then Some("Incorreto")
    else if name == Some("correct") then Some("Correto")
    else None
  }
}
