/**
 The bounded document context of a prompt (`_document_context` and its helpers
 in `document_index/contextualization.py`), measured as the prompt renderer will
 write it: with XML delimiters escaped (section 2.4 of XML 1.0).
 */
module PromptBudget {
  import opened Prelude

  const DOCUMENT_CONTEXT_MAX_CHARACTERS := 12_000
  const METADATA_MAX_CHARACTERS := 3_000
  const CHUNK_MAX_CHARACTERS := 2_000

  // ----- escaping

  /** `str.replace` of one character. */
  function Replace(s: string, c: char, w: string): string {
    if s == "" then "" else (if s[0] == c then w else [s[0]]) + Replace(s[1..], c, w)
  }

  /** `xml.sax.saxutils.escape`: three replacements, one after the other. */
  function Escape(s: string): string {
    Replace(Replace(Replace(s, '&', "&amp;"), '>', "&gt;"), '<', "&lt;")
  }

  function Escaped(c: char): string {
    if c == '&' then "&amp;" else if c == '<' then "&lt;" else if c == '>' then "&gt;" else [c]
  }

  /** The reference: every character escaped by itself. */
  function EscapeEach(s: string): string {
    if s == "" then "" else Escaped(s[0]) + EscapeEach(s[1..])
  }

  lemma {:induction false} ReplaceAppend(a: string, b: string, c: char, w: string)
    ensures Replace(a + b, c, w) == Replace(a, c, w) + Replace(b, c, w)
  {
    if a == "" {
      assert a + b == b;
    } else {
      assert (a + b)[1..] == a[1..] + b;
      ReplaceAppend(a[1..], b, c, w);
    }
  }

  lemma {:induction false} ReplaceAbsent(s: string, c: char, w: string)
    requires c !in s
    ensures Replace(s, c, w) == s
  {
    if s != "" {
      assert s[0] in s;
      ReplaceAbsent(s[1..], c, w);
      assert s == [s[0]] + s[1..];
    }
  }

  lemma ReplaceOne(x: char, c: char, w: string)
    ensures Replace([x], c, w) == if x == c then w else [x]
  {
  }

  /** Escaping one character by the three replacements. */
  lemma EscapeOne(c: char)
    ensures Escape([c]) == Escaped(c)
    ensures Escape([c])
         == (if c == '&' then "&amp;" else if c == '<' then "&lt;" else if c == '>' then "&gt;" else [c])
  {
    hide Replace;
    ReplaceOne(c, '&', "&amp;");
    if c == '&' {
      ReplaceAbsent("&amp;", '>', "&gt;");
      ReplaceAbsent("&amp;", '<', "&lt;");
    } else {
      ReplaceOne(c, '>', "&gt;");
      if c == '>' {
        ReplaceAbsent("&gt;", '<', "&lt;");
      } else {
        ReplaceOne(c, '<', "&lt;");
      }
    }
  }

  lemma EscapeAppend(a: string, b: string)
    ensures Escape(a + b) == Escape(a) + Escape(b)
  {
    hide Replace;
    ReplaceAppend(a, b, '&', "&amp;");
    var a1, b1 := Replace(a, '&', "&amp;"), Replace(b, '&', "&amp;");
    ReplaceAppend(a1, b1, '>', "&gt;");
    ReplaceAppend(Replace(a1, '>', "&gt;"), Replace(b1, '>', "&gt;"), '<', "&lt;");
  }

  /** The three replacements never escape what an earlier one wrote. */
  lemma {:induction false} EscapeIsPerCharacter(s: string)
    ensures Escape(s) == EscapeEach(s)
  {
    hide Escape;
    if s == "" {
      EscapeNothing();
    } else {
      EscapeAppend([s[0]], s[1..]);
      EscapeOne(s[0]);
      assert s == [s[0]] + s[1..];
      EscapeIsPerCharacter(s[1..]);
    }
  }

  lemma EscapeNothing()
    ensures Escape("") == ""
  {
  }

  // ----- measuring

  function Weight(c: char): nat { if c == '&' then 5 else if c == '<' || c == '>' then 4 else 1 }

  /** `_prompt_text_length`. */
  function Length(s: string): nat {
    if s == "" then 0 else Weight(s[0]) + Length(s[1..])
  }

  /** The counting function is the length of the escaped text. */
  lemma {:induction false} LengthIsExact(s: string)
    ensures Length(s) == |Escape(s)|
  {
    hide Escape;
    EscapeIsPerCharacter(s);
    if s != "" {
      LengthIsExact(s[1..]);
      EscapeIsPerCharacter(s[1..]);
    }
  }

  lemma {:induction false} LengthAppend(a: string, b: string)
    ensures Length(a + b) == Length(a) + Length(b)
  {
    if a == "" {
      assert a + b == b;
    } else {
      assert (a + b)[1..] == a[1..] + b;
      LengthAppend(a[1..], b);
    }
  }

  lemma LengthSnoc(s: string, k: nat)
    requires k < |s|
    ensures Length(s[..k + 1]) == Length(s[..k]) + Weight(s[k])
  {
    assert s[..k + 1] == s[..k] + [s[k]];
    LengthAppend(s[..k], [s[k]]);
    assert [s[k]][1..] == "";
  }

  lemma {:induction false} LongerWeighsMore(s: string, j: nat, k: nat)
    requires j <= k <= |s|
    ensures Length(s[..j]) + (k - j) <= Length(s[..k])
    decreases k - j
  {
    if j < k {
      LongerWeighsMore(s, j, k - 1);
      LengthSnoc(s, k - 1);
    }
  }

  /** `r` is the longest prefix of `s` that fits into the budget. */
  ghost predicate LongestPrefix(s: string, budget: int, r: string) {
    && |r| <= |s| && r == s[..|r|]
    && forall j {:trigger s[..j]} :: 0 <= j <= |s| ==> (Length(s[..j]) <= budget <==> budget >= 0 && j <= |r|)
  }

  lemma PrefixStopsHere(s: string, k: nat, budget: int)
    requires k <= |s| && Length(s[..k]) <= budget && (k < |s| ==> Length(s[..k + 1]) > budget)
    ensures LongestPrefix(s, budget, s[..k])
  {
    forall j | 0 <= j <= |s| ensures Length(s[..j]) <= budget <==> j <= k {
      if j <= k {
        LongerWeighsMore(s, j, k);
      } else {
        LongerWeighsMore(s, k + 1, j);
      }
    }
  }

  /** `_prompt_text_prefix`. */
  method PromptTextPrefix(value: string, budget: int) returns (r: string)
    ensures budget >= 0 ==> LongestPrefix(value, budget, r)
    ensures budget <= 0 ==> r == ""
  {
    if budget <= 0 {
      if budget == 0 && value != "" {
        LengthSnoc(value, 0);
      }
      if budget == 0 {
        PrefixStopsHere(value, 0, 0);
      }
      return "";
    }
    var consumed := 0;
    for k := 0 to |value|
      invariant consumed == Length(value[..k]) <= budget
    {
      LengthSnoc(value, k);
      consumed := consumed + Weight(value[k]);
      if consumed > budget {
        PrefixStopsHere(value, k, budget);
        return value[..k];
      }
    }
    assert value[..|value|] == value;
    PrefixStopsHere(value, |value|, budget);
    return value;
  }

  /** There is only one longest prefix. */
  lemma LongestPrefixIsUnique(s: string, budget: nat, a: string, b: string)
    requires LongestPrefix(s, budget, a) && LongestPrefix(s, budget, b)
    ensures a == b
  {
  }

  // ----- the document context

  datatype Excerpt = Excerpt(index: nat, section: string, text: string)

  function Label(e: Excerpt): string {
    "[" + Decimal(e.index) + (if e.section != "" then " | " + e.section else "") + "] "
  }

  function Shortened(text: string): (r: string)
    ensures r <= text && |r| == if |text| < CHUNK_MAX_CHARACTERS then |text| else CHUNK_MAX_CHARACTERS
  {
    if |text| <= CHUNK_MAX_CHARACTERS then text else text[..CHUNK_MAX_CHARACTERS]
  }

  const HEADER := "Relevant canonical chunk excerpts (target excluded):"

  function JoinLines(lines: seq<string>): string {
    if lines == [] then "" else if |lines| == 1 then lines[0]
    else JoinLines(lines[..|lines| - 1]) + "\n" + lines[|lines| - 1]
  }

  /** The first line comes first, and each of the others after a line break. */
  lemma {:induction false} JoinedInOrder(first: string, rest: seq<string>)
    ensures JoinLines([first] + rest) == first + (if rest == [] then "" else "\n" + JoinLines(rest))
    decreases |rest|
  {
    var lines := [first] + rest;
    if |rest| > 1 {
      var fewer, last := rest[..|rest| - 1], rest[|rest| - 1];
      JoinedInOrder(first, fewer);
      assert lines[..|lines| - 1] == [first] + fewer;
      assert first + ("\n" + JoinLines(fewer)) + "\n" + last == first + ("\n" + (JoinLines(fewer) + "\n" + last));
    } else if |rest| == 1 {
      assert lines[..1] == [first] && lines[1] == rest[0];
      assert first + "\n" + rest[0] == first + ("\n" + rest[0]);
    }
  }

  /** What the lines cost, each with its line break. */
  function Cost(lines: seq<string>): nat {
    if lines == [] then 0 else Cost(lines[..|lines| - 1]) + Length(lines[|lines| - 1]) + 1
  }

  lemma CostOneMore(lines: seq<string>, line: string)
    ensures Cost(lines + [line]) == Cost(lines) + Length(line) + 1
  {
  }

  /** The joined text is escaped to one character less than the lines cost. */
  lemma {:induction false} JoinedLength(lines: seq<string>)
    requires lines != []
    ensures Length(JoinLines(lines)) + 1 == Cost(lines)
    decreases |lines|
  {
    if |lines| > 1 {
      var fewer, last := lines[..|lines| - 1], lines[|lines| - 1];
      JoinedLength(fewer);
      LengthAppend(JoinLines(fewer), "\n");
      LengthAppend(JoinLines(fewer) + "\n", last);
      assert Length("\n") == 1 by { assert "\n"[1..] == ""; }
    }
  }

  /** The chunk lines: the longest affordable prefix of each excerpt, until the budget is spent. */
  ghost predicate Affordable(candidates: seq<Excerpt>, lines: seq<string>, budget: int)
    decreases |lines|
  {
    && |lines| <= |candidates|
    && if lines == [] then true
       else
         var last := |lines| - 1;
         var left := budget - Cost(lines[..last]);
         && Affordable(candidates, lines[..last], budget) && left > 0
         && LongestPrefix(Label(candidates[last]) + Shortened(candidates[last].text), left, lines[last])
  }

  /**
   What the chunk lines say: the position and section of the excerpt and the first
   characters of its text, in the order of the candidates.  A line is cut short only
   when at most three characters of the budget are left behind it: an escaped `&`
   may be too long although they are.
   */
  lemma {:induction false} LinesAreExcerpts(candidates: seq<Excerpt>, lines: seq<string>, budget: int, k: nat)
    requires Affordable(candidates, lines, budget) && k < |lines|
    ensures |lines| <= |candidates|
    ensures var e := candidates[k];
            var size := if |e.text| < CHUNK_MAX_CHARACTERS then |e.text| else CHUNK_MAX_CHARACTERS;
            var section := if e.section == "" then "" else " | " + e.section;
            var line := "[" + Decimal(e.index) + section + "] " + e.text[..size];
            lines[k] <= line && (lines[k] == line || budget - Cost(lines[..k + 1]) <= 3)
    decreases |lines|
  {
    hide Length, Decimal;
    var last := |lines| - 1;
    LabelIs(candidates[last]);
    if k < last {
      LinesAreExcerpts(candidates, lines[..last], budget, k);
      assert lines[..last][k] == lines[k] && lines[..last][..k + 1] == lines[..k + 1];
    } else {
      assert lines[..k + 1] == lines;
      LineIsWhole(candidates, lines, budget);
    }
  }

  lemma LabelIs(e: Excerpt)
    ensures Label(e) == "[" + Decimal(e.index) + (if e.section == "" then "" else " | " + e.section) + "] "
    ensures Shortened(e.text)
         == e.text[..if |e.text| < CHUNK_MAX_CHARACTERS then |e.text| else CHUNK_MAX_CHARACTERS]
  {
  }

  /** Seven characters are left: the first excerpt is cut in front of its `&`, and a second line follows. */
  lemma CutLineIsFollowed()
    ensures Affordable([Excerpt(0, "", "&"), Excerpt(1, "", "x")], ["[0] ", "[1"], 7)
  {
    hide Label, Shortened, LongestPrefix, Length, Affordable, Cost;
    var candidates, first, second := [Excerpt(0, "", "&"), Excerpt(1, "", "x")], "[0] ", "[1";
    FirstIsCut();
    SecondIsCut();
    AffordableNone(candidates);
    NothingCosts();
    AffordableMore(candidates, [], first, 7);
    assert [] + [first] == [first] && [first] + [second] == [first, second];
    CostOneMore([], first);
    AffordableMore(candidates, [first], second, 7);
  }

  lemma NothingCosts()
    ensures Cost([]) == 0
  {
  }

  lemma FirstIsCut()
    ensures LongestPrefix(Label(Excerpt(0, "", "&")) + Shortened("&"), 7, "[0] ") && Length("[0] ") == 4
  {
    var whole := "[0] &";
    assert Label(Excerpt(0, "", "&")) + Shortened("&") == whole && whole[..4] == "[0] " && whole[..5] == whole;
    hide Label, Length;
    Measured(whole);
    PrefixStopsHere(whole, 4, 7);
  }

  lemma SecondIsCut()
    ensures LongestPrefix(Label(Excerpt(1, "", "x")) + Shortened("x"), 2, "[1")
  {
    var whole := "[1] x";
    assert Label(Excerpt(1, "", "x")) + Shortened("x") == whole && whole[..2] == "[1";
    hide Label, Length;
    Measured(whole);
    PrefixStopsHere(whole, 2, 2);
  }

  lemma Measured(s: string)
    requires |s| == 5
    ensures Length(s[..1]) == Weight(s[0]) && Length(s[..2]) == Weight(s[0]) + Weight(s[1])
    ensures Length(s[..3]) == Length(s[..2]) + Weight(s[2]) && Length(s[..4]) == Length(s[..3]) + Weight(s[3])
    ensures Length(s[..5]) == Length(s[..4]) + Weight(s[4])
  {
    hide Length;
    LengthSnoc(s, 0);
    LengthSnoc(s, 1);
    LengthSnoc(s, 2);
    LengthSnoc(s, 3);
    LengthSnoc(s, 4);
    LengthIsExact("");
    EscapeNothing();
    assert s[..0] == "";
  }

  /** A line that leaves four characters of the budget was not cut. */
  lemma LineIsWhole(candidates: seq<Excerpt>, lines: seq<string>, budget: int)
    requires Affordable(candidates, lines, budget) && lines != []
    ensures |lines| <= |candidates|
    ensures var whole := Label(candidates[|lines| - 1]) + Shortened(candidates[|lines| - 1].text);
            lines[|lines| - 1] <= whole && (lines[|lines| - 1] == whole || budget - Cost(lines) <= 3)
  {
    hide Label, Shortened, Length;
    var last := |lines| - 1;
    var left := budget - Cost(lines[..last]);
    var whole := Label(candidates[last]) + Shortened(candidates[last].text);
    var n := |lines[last]|;
    assert LongestPrefix(whole, left, lines[last]);
    if n < |whole| {
      LengthSnoc(whole, n);
      assert Length(whole[..n + 1]) > left;
    }
  }

  lemma AffordableMore(candidates: seq<Excerpt>, lines: seq<string>, line: string, budget: int)
    requires Affordable(candidates, lines, budget) && |lines| < |candidates| && budget - Cost(lines) > 0
    requires LongestPrefix(Label(candidates[|lines|]) + Shortened(candidates[|lines|].text), budget - Cost(lines), line)
    ensures Affordable(candidates, lines + [line], budget)
  {
  }

  /** `_document_context`: `metadata` are the joined metadata lines, `candidates` the other chunks,
      most relevant first. */
  method DocumentContext(metadata: string, candidates: seq<Excerpt>)
    returns (context: string, ghost head: string, ghost chunks: seq<string>)
    ensures LongestPrefix(metadata, METADATA_MAX_CHARACTERS, head)
    ensures context == JoinLines([head, HEADER] + chunks)
    ensures Affordable(candidates, chunks, DOCUMENT_CONTEXT_MAX_CHARACTERS - Cost([head, HEADER]))
    ensures |chunks| == |candidates| || Cost([head, HEADER] + chunks) >= DOCUMENT_CONTEXT_MAX_CHARACTERS
    ensures |Escape(context)| <= DOCUMENT_CONTEXT_MAX_CHARACTERS
  {
    hide Length, Label, Shortened, Escape, Affordable, LongestPrefix, Cost, JoinLines;
    AffordableNone(candidates);
    var metadataText := PromptTextPrefix(metadata, METADATA_MAX_CHARACTERS);
    head, chunks := metadataText, [];
    var lines := [metadataText, HEADER];
    TwoLines(metadataText, HEADER);
    HeadFits(metadata, head);
    var remaining := DOCUMENT_CONTEXT_MAX_CHARACTERS - (Length(metadataText) + 1 + Length(HEADER) + 1);
    ghost var budget := remaining;
    var k := 0;
    while k < |candidates| && remaining > 0
      invariant 0 <= k <= |candidates| && |chunks| == k && lines == [head, HEADER] + chunks
      invariant remaining == DOCUMENT_CONTEXT_MAX_CHARACTERS - Cost(lines) == budget - Cost(chunks) && remaining >= -1
      invariant Affordable(candidates, chunks, budget)
    {
      var excerpt := Label(candidates[k]) + Shortened(candidates[k].text);
      var bounded := PromptTextPrefix(excerpt, remaining);
      PrefixFits(excerpt, remaining, bounded);
      CostOneMore(lines, bounded);
      CostOneMore(chunks, bounded);
      AffordableMore(candidates, chunks, bounded, budget);
      assert lines + [bounded] == [head, HEADER] + (chunks + [bounded]);
      lines, chunks := lines + [bounded], chunks + [bounded];
      remaining := remaining - (Length(bounded) + 1);
      k := k + 1;
    }
    context := JoinLines(lines);
    JoinedLength(lines);
    LengthIsExact(context);
  }

  lemma AffordableNone(candidates: seq<Excerpt>)
    ensures forall budget :: Affordable(candidates, [], budget)
  {
  }

  lemma TwoLines(a: string, b: string)
    ensures Cost([a, b]) == Length(a) + 1 + Length(b) + 1 && Cost([]) == 0
  {
    CostOneMore([], a);
    CostOneMore([a], b);
    assert [] + [a] == [a] && [a] + [b] == [a, b];
  }

  lemma PrefixFits(s: string, budget: nat, r: string)
    requires LongestPrefix(s, budget, r)
    ensures Length(r) <= budget
  {
  }

  lemma HeadFits(metadata: string, head: string)
    requires LongestPrefix(metadata, METADATA_MAX_CHARACTERS, head)
    ensures Length(head) <= METADATA_MAX_CHARACTERS && Length(HEADER) <= 260
  {
    PrefixFits(metadata, METADATA_MAX_CHARACTERS, head);
    AtMostFive(HEADER);
  }

  lemma {:induction false} AtMostFive(s: string)
    ensures Length(s) <= 5 * |s|
  {
    if s != "" { AtMostFive(s[1..]); }
  }
}
