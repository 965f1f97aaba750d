/** The two template filters with content: the one-line markdown filter and
    the currency symbol. */
module Markup {
  import opened Wrappers

  predicate StartsWith(s: string, p: string) { |p| <= |s| && s[..|p|] == p }

  predicate EndsWith(s: string, p: string) { |p| <= |s| && s[|s| - |p|..] == p }

  /** Python's s[k:-k] for k >= 1 (at k = 0 Python's slice is empty): the
      string without k characters at each end, empty when the string has
      fewer than 2k characters. */
  function Strip(s: string, k: nat): (r: string)
    requires k >= 1
    ensures |r| == if 2 * k <= |s| then |s| - 2 * k else 0
  {
    if 2 * k <= |s| then s[k..|s| - k] else []
  }

  predicate IsBold(line: string) { StartsWith(line, "**") && EndsWith(line, "**") }

  predicate IsItalic(line: string) { StartsWith(line, "_") && EndsWith(line, "_") }

  /** md_to_html: a line between ** markers becomes strong, else a line
      between _ markers becomes emphasised, else the line is kept. */
  function MdToHtml(line: string): (r: string)
    ensures r == line <==> !IsBold(line) && !IsItalic(line)
  {
    if IsBold(line) then "<strong>" + Strip(line, 2) + "</strong>"
    else if IsItalic(line) then "<em>" + Strip(line, 1) + "</em>"
    else line
  }

  /** Text written in bold comes back inside strong tags. */
  lemma MdToHtmlBold(text: string)
    ensures MdToHtml("**" + text + "**") == "<strong>" + text + "</strong>"
  {
    var line := "**" + text + "**";
    assert line[..2] == "**";
    assert line[|line| - 2..] == "**";
    assert line[2..|line| - 2] == text;
  }

  /** Text written in italics comes back inside em tags. */
  lemma MdToHtmlItalic(text: string)
    ensures MdToHtml("_" + text + "_") == "<em>" + text + "</em>"
  {
    var line := "_" + text + "_";
    assert line[..1] == "_";
    assert line[|line| - 1..] == "_";
    assert !StartsWith(line, "**") by {
      assert line[0] == '_';
    }
    assert line[1..|line| - 1] == text;
  }

  /** Markers that overlap on a short line leave nothing inside them. */
  lemma MdToHtmlShortLines()
    ensures MdToHtml("**") == "<strong></strong>"
    ensures MdToHtml("***") == "<strong></strong>"
    ensures MdToHtml("_") == "<em></em>"
  {
    assert IsBold("**") && IsBold("***");
    assert !IsBold("_") && IsItalic("_");
  }

  /** get_currency_symbol: the symbol of the two known currency codes; any
      other code is an error.  The pound entry is the two characters the
      source file holds, U+00C2 U+00A3. */
  function GetCurrencySymbol(currencyCode: string): (r: Option<string>)
    ensures r.Some? <==> currencyCode == "gbp" || currencyCode == "usd"
    ensures r.Some? ==> r.value != []
  {
    if currencyCode == "gbp" then Some("Â£")
    else if currencyCode == "usd" then Some("$")
    else None
  }
}
