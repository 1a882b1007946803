// The identification letter helper: four form fields substituted into a
// fixed letter, each blank field replaced by a bracketed placeholder.

module Letter {
  import opened Wrappers
  import opened Text

  datatype Inputs = Inputs(
    investor: string,
    intermediary: string,
    relinquished: string,
    replacementList: string)

  const IntermediaryPlaceholder := "[Qualified Intermediary]"
  const InvestorPlaceholder := "[Investor]"
  const RelinquishedPlaceholder := "[Property address]"
  const ReplacementPlaceholder := "[List addresses, legal descriptions, or contract references]"

  /** The closing sentence every letter ends with. */
  const Acknowledgement :=
    "This letter is delivered within the forty five day identification period. Please acknowledge receipt."

  /** `x || placeholder` on a string: the empty string is falsy. */
  function OrPlaceholder(s: string, placeholder: string): (r: string)
    ensures s != "" ==> r == s
    ensures s == "" ==> r == placeholder
  {
    if s != "" then s else placeholder
  }

  /** The four texts that end up in the letter, in input order. */
  function Shown(i: Inputs): (r: Inputs)
    ensures i.investor != "" ==> r.investor == i.investor
    ensures i.investor == "" ==> r.investor == InvestorPlaceholder
    ensures i.intermediary != "" ==> r.intermediary == i.intermediary
    ensures i.intermediary == "" ==> r.intermediary == IntermediaryPlaceholder
    ensures i.relinquished != "" ==> r.relinquished == i.relinquished
    ensures i.relinquished == "" ==> r.relinquished == RelinquishedPlaceholder
    ensures i.replacementList != "" ==> r.replacementList == i.replacementList
    ensures i.replacementList == "" ==> r.replacementList == ReplacementPlaceholder
  {
    Inputs(OrPlaceholder(i.investor, InvestorPlaceholder),
           OrPlaceholder(i.intermediary, IntermediaryPlaceholder),
           OrPlaceholder(i.relinquished, RelinquishedPlaceholder),
           OrPlaceholder(i.replacementList, ReplacementPlaceholder))
  }

  /** The headings of the letter's lines; the blank line before each of the
      last two is the line break that opens the heading. */
  const ToHeading := "To: "
  const FromHeading := "From: "
  const RelinquishedHeading := "\nRelinquished property: "
  const ReplacementHeading := "\nReplacement properties:\n"

  /** The `template` memo. */
  function Template(i: Inputs): (r: string)
    ensures StartsWith(r, "To: ")
    ensures EndsWith(r, Acknowledgement)
  {
    var s := Shown(i);
    ToHeading + s.intermediary + "\n" + FromHeading + s.investor + "\n"
      + RelinquishedHeading + s.relinquished + "\n"
      + ReplacementHeading + s.replacementList
      + Closing
  }

  /** `s` with `prefix` removed, when `s` starts with it. */
  function StripPrefix(s: string, prefix: string): (r: Option<string>)
    ensures r.Some? <==> StartsWith(s, prefix)
    ensures r.Some? ==> s == prefix + r.value
  {
    if StartsWith(s, prefix) then
      assert s == s[..|prefix|] + s[|prefix|..];
      Some(s[|prefix|..])
    else None
  }

  lemma StripPrefixOf(prefix: string, rest: string)
    ensures StripPrefix(prefix + rest, prefix) == Some(rest)
  {
    assert (prefix + rest)[..|prefix|] == prefix;
    assert (prefix + rest)[|prefix|..] == rest;
  }

  /** The text up to the first line break and the text after it. */
  function SplitLine(s: string): (r: Option<(string, string)>)
    ensures r.Some? <==> '\n' in s
    ensures r.Some? ==> s == r.value.0 + "\n" + r.value.1 && '\n' !in r.value.0
  {
    if s == [] then None
    else if s[0] == '\n' then Some(([], s[1..]))
    else
      match SplitLine(s[1..])
      case None => None
      case Some(p) => Some(([s[0]] + p.0, p.1))
  }

  /** A line without a line break is split off exactly. */
  lemma {:induction false} SplitLineOf(line: string, rest: string)
    requires '\n' !in line
    ensures SplitLine(line + "\n" + rest) == Some((line, rest))
  {
    if line == [] {
      assert line + "\n" + rest == ['\n'] + rest;
    } else {
      assert (line + "\n" + rest)[1..] == line[1..] + "\n" + rest;
      SplitLineOf(line[1..], rest);
      assert [line[0]] + line[1..] == line;
    }
  }

  /** A heading followed by one line: the line and the text after its
      line break. */
  function Field(s: string, heading: string): (r: Option<(string, string)>)
    ensures r.Some? ==> s == heading + (r.value.0 + "\n" + r.value.1)
    ensures r.Some? ==> '\n' !in r.value.0
  {
    match StripPrefix(s, heading)
    case None => None
    case Some(rest) => SplitLine(rest)
  }

  lemma FieldOf(heading: string, line: string, rest: string)
    requires '\n' !in line
    ensures Field(heading + (line + "\n" + rest), heading) == Some((line, rest))
  {
    StripPrefixOf(heading, line + "\n" + rest);
    SplitLineOf(line, rest);
  }

  /** The closing paragraph after the replacement list. */
  const Closing := "\n\n" + Acknowledgement

  /** Reads the four texts back out of a letter, or `None` if the text does
      not have the letter's shape. The intermediary, investor and property
      lines end at the first line break; the replacement list is everything
      between its heading and the closing paragraph. */
  function ParseLetter(text: string): (r: Option<Inputs>)
    ensures r.Some? ==> StartsWith(text, "To: ")
  {
    match Field(text, ToHeading)
    case None => None
    case Some(to) =>
      match Field(to.1, FromHeading)
      case None => None
      case Some(from) =>
        match Field(from.1, RelinquishedHeading)
        case None => None
        case Some(relinquished) =>
          match StripPrefix(relinquished.1, ReplacementHeading)
          case None => None
          case Some(list) =>
            if !EndsWith(list, Closing) then None
            else Some(Inputs(from.0, to.0, relinquished.0, list[..|list| - |Closing|]))
  }

  /** The three single-line fields come from one-line text inputs. */
  predicate SingleLineFields(i: Inputs) {
    '\n' !in i.intermediary && '\n' !in i.investor && '\n' !in i.relinquished
  }

  /** Reading a letter back gives the texts that were substituted into it:
      each non-blank field verbatim, each blank one as its placeholder. */
  lemma ParseTemplate(i: Inputs)
    requires SingleLineFields(i)
    ensures ParseLetter(Template(i)) == Some(Shown(i))
  {
    var s := Shown(i);
    assert '\n' !in s.intermediary && '\n' !in s.investor && '\n' !in s.relinquished by {
      PlaceholdersSingleLine();
    }
    Regroup(ToHeading, s.intermediary, FromHeading, s.investor, RelinquishedHeading,
            s.relinquished, ReplacementHeading, s.replacementList, Closing);
    ParseComposed(s.intermediary, s.investor, s.relinquished, s.replacementList);
  }

  /** The letter's text with its lines nested from the right. */
  function Composed(to: string, from: string, relinquished: string, list: string): string {
    ToHeading + (to + "\n" + (FromHeading + (from + "\n"
      + (RelinquishedHeading + (relinquished + "\n" + (ReplacementHeading + (list + Closing)))))))
  }

  /** Each line is read back from the nested text. */
  lemma ParseComposed(to: string, from: string, relinquished: string, list: string)
    requires '\n' !in to && '\n' !in from && '\n' !in relinquished
    ensures ParseLetter(Composed(to, from, relinquished, list)) == Some(Inputs(from, to, relinquished, list))
  {
    var rest := list + Closing;
    var r3 := ReplacementHeading + rest;
    var r2 := RelinquishedHeading + (relinquished + "\n" + r3);
    var r1 := FromHeading + (from + "\n" + r2);
    FieldOf(ToHeading, to, r1);
    FieldOf(FromHeading, from, r2);
    FieldOf(RelinquishedHeading, relinquished, r3);
    StripPrefixOf(ReplacementHeading, rest);
    assert EndsWith(rest, Closing) && rest[..|rest| - |Closing|] == list by {
      assert rest[|rest| - |Closing|..] == Closing;
    }
  }

  /** The letter's concatenation, regrouped around its line breaks. */
  lemma Regroup(a: string, b: string, c: string, d: string, e: string,
                f: string, g: string, h: string, k: string)
    ensures a + b + "\n" + c + d + "\n" + e + f + "\n" + g + h + k ==
      a + (b + "\n" + (c + (d + "\n" + (e + (f + "\n" + (g + (h + k)))))))
  {
  }

  lemma PlaceholdersSingleLine()
    ensures '\n' !in IntermediaryPlaceholder
    ensures '\n' !in InvestorPlaceholder
    ensures '\n' !in RelinquishedPlaceholder
  {
  }

  /** Two letters are the same text exactly when they show the same four
      texts. */
  lemma TemplateInjective(i: Inputs, j: Inputs)
    requires SingleLineFields(i) && SingleLineFields(j)
    ensures Template(i) == Template(j) <==> Shown(i) == Shown(j)
  {
    if Template(i) == Template(j) {
      ParseTemplate(i);
      ParseTemplate(j);
    }
  }

  /** With every field blank the letter shows every placeholder. */
  lemma BlankLetter()
    ensures ParseLetter(Template(Inputs("", "", "", ""))) ==
      Some(Inputs(InvestorPlaceholder, IntermediaryPlaceholder,
                  RelinquishedPlaceholder, ReplacementPlaceholder))
  {
    ParseTemplate(Inputs("", "", "", ""));
  }
}
