/** The human-readable name of a scroll target, shown in the target list and in
    the widget: `#id`, else `.firstClass`, else the lower-cased tag name; the
    whole page is "Whole Page". */
module Labels {
  import opened Dom

  const WholePageLabel := "Whole Page"

  predicate IsUpper(c: char) { 'A' <= c <= 'Z' }

  function LowerChar(c: char): char {
    if IsUpper(c) then (c as int + 32) as char else c
  }

  /** `toLowerCase`, on the ASCII letters. */
  function ToLower(s: string): (r: string)
    ensures |r| == |s|
    ensures forall i :: 0 <= i < |s| ==> !IsUpper(r[i])
    ensures forall i :: 0 <= i < |s| && !IsUpper(s[i]) ==> r[i] == s[i]
    ensures forall i :: 0 <= i < |s| && IsUpper(s[i]) ==> r[i] as int == s[i] as int + 32
  {
    seq(|s|, i requires 0 <= i < |s| => LowerChar(s[i]))
  }

  /** `className.split(' ')[0]`: everything before the first space. */
  function FirstClassToken(s: string): (r: string)
    ensures |r| <= |s| && r == s[..|r|]
    ensures ' ' !in r
    ensures |r| == |s| || s[|r|] == ' '
  {
    if s == [] || s[0] == ' ' then [] else [s[0]] + FirstClassToken(s[1..])
  }

  /** The label of an element (content/content.js and content/widget.js use the same rule). */
  function ElementLabel(e: Element): string {
    if e.id != "" then "#" + e.id
    else if e.className.ClassText? && e.className.text != "" && FirstClassToken(e.className.text) != "" then
      "." + FirstClassToken(e.className.text)
    else ToLower(e.tagName)
  }

  /** `getElementLabel`: `None` stands for the whole page. */
  function GetElementLabel(el: Option<Element>): string {
    match el
    case None => WholePageLabel
    case Some(e) => ElementLabel(e)
  }

  /** The priority of the three rules, each stated in terms of the element's attributes. */
  lemma LabelRules(el: Option<Element>)
    ensures el.None? ==> GetElementLabel(el) == "Whole Page"
    ensures el.Some? && el.value.id != "" ==> GetElementLabel(el) == "#" + el.value.id
    ensures el.Some? && el.value.id == "" && el.value.className.ClassText? ==>
              var tok := FirstClassToken(el.value.className.text);
              (tok != "" ==> GetElementLabel(el) == "." + tok) &&
              (tok == "" ==> GetElementLabel(el) == ToLower(el.value.tagName))
    ensures el.Some? && el.value.id == "" && el.value.className.ClassObject? ==>
              GetElementLabel(el) == ToLower(el.value.tagName)
  {
    if el.Some? && el.value.className.ClassText? && el.value.className.text == "" {
      assert FirstClassToken(el.value.className.text) == "";
    }
  }

  /** A tag name starts with an ASCII letter; the rest is unconstrained
      (custom elements such as `YTD-APP` contain `-`). */
  predicate IsTagName(s: string) {
    |s| > 0 && ('a' <= s[0] <= 'z' || 'A' <= s[0] <= 'Z')
  }

  /** The first character of a label says which rule produced it: the label
      can be read back into "by id", "by class" or "by tag". */
  lemma LabelKindFromFirstChar(e: Element)
    requires IsTagName(e.tagName)
    ensures var l := ElementLabel(e);
      && |l| > 0
      && (l[0] == '#' <==> e.id != "")
      && (l[0] == '#' ==> l[1..] == e.id)
      && (l[0] == '.' <==> e.id == "" && e.className.ClassText? && FirstClassToken(e.className.text) != "")
      && (l[0] == '.' ==> e.className.ClassText? && l[1..] == FirstClassToken(e.className.text) && ' ' !in l[1..])
      && (l[0] != '#' && l[0] != '.' ==> l == ToLower(e.tagName) && 'a' <= l[0] <= 'z')
  {
    var l := ElementLabel(e);
    if e.id == "" && !(e.className.ClassText? && e.className.text != "" && FirstClassToken(e.className.text) != "") {
      assert l == ToLower(e.tagName);
      assert l[0] == LowerChar(e.tagName[0]);
    }
  }
}
