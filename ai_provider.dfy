/**
 * The helpers every provider shares: the prompt sent to the model, and the clean-up of the text the
 * model returns (trimming, and removing one echoed lead-in such as "Summary:").
 */
module AIProvider {
  import opened Wrappers
  import opened Strings

  // ---------------------------------------------------------------- prompt

  const PromptHead: string := "Please provide a comprehensive summary of the following text in approximately "
  const PromptTail: string := "words. Focus on the main ideas, key points, and important details:\n\n"

  /** `formatPrompt(content, length)`: a fixed instruction naming the length, then the content verbatim. */
  function FormatPrompt(content: string, length: int): (prompt: string)
    ensures |prompt| > |content| + 2
    ensures prompt[|prompt| - |content| - 2..] == "\n\n" + content
  {
    PromptHead + IntToDecimal(length) + " " + PromptTail + content
  }

  /** The text in front of the content depends on the length only. */
  lemma PromptInstructionDependsOnLengthOnly(a: string, b: string, length: int)
    ensures var pa := FormatPrompt(a, length);
            var pb := FormatPrompt(b, length);
            pa[..|pa| - |a|] == pb[..|pb| - |b|]
  {
    var head := PromptHead + IntToDecimal(length) + " " + PromptTail;
    assert FormatPrompt(a, length)[..|head|] == head;
    assert FormatPrompt(b, length)[..|head|] == head;
  }

  /** Two strings without a space, each followed by a space, are told apart by that first space. */
  lemma {:induction false} FirstSpaceSplits(a: string, x: string, b: string, y: string)
    requires ' ' !in a && ' ' !in b
    requires a + " " + x == b + " " + y
    ensures a == b && x == y
    decreases |a|
  {
    if a == [] || b == [] {
      assert (a + " " + x)[0] == (b + " " + y)[0];
      assert a == [] && b == [];
      assert x == (a + " " + x)[1..];
      assert y == (b + " " + y)[1..];
    } else {
      assert a[0] == (a + " " + x)[0] == (b + " " + y)[0] == b[0];
      assert (a + " " + x)[1..] == a[1..] + " " + x;
      assert (b + " " + y)[1..] == b[1..] + " " + y;
      FirstSpaceSplits(a[1..], x, b[1..], y);
      assert a == [a[0]] + a[1..];
      assert b == [b[0]] + b[1..];
    }
  }

  /** The prompt determines both the requested length and the content. */
  lemma PromptDeterminesInputs(a: string, m: int, b: string, n: int)
    ensures FormatPrompt(a, m) == FormatPrompt(b, n) ==> a == b && m == n
  {
    if FormatPrompt(a, m) == FormatPrompt(b, n) {
      var da, db := IntToDecimal(m), IntToDecimal(n);
      assert ' ' !in da && ' ' !in db;
      SameFrameSameSlots(PromptHead, da, PromptTail, a, db, b);
      IntToDecimalInjective(m, n);
    }
  }

  /** A fixed frame `head + _ + " " + tail + _` whose first slot has no space gives back both slots. */
  lemma SameFrameSameSlots(head: string, x: string, tail: string, c: string, y: string, d: string)
    requires ' ' !in x && ' ' !in y
    requires head + x + " " + tail + c == head + y + " " + tail + d
    ensures x == y && c == d
  {
    var p := head + x + " " + tail + c;
    var q := head + y + " " + tail + d;
    assert p[|head|..] == x + " " + (tail + c);
    assert q[|head|..] == y + " " + (tail + d);
    FirstSpaceSplits(x, tail + c, y, tail + d);
    assert c == (tail + c)[|tail|..];
  }

  // ---------------------------------------------------------------- summary clean-up

  /** The lead-ins a model tends to echo, in the order they are tried. */
  const Indicators: seq<string> := [
    "Here is a summary",
    "Here's a summary",
    "Summary:",
    "The summary is:",
    "Based on the text",
    "The text discusses"
  ]

  /** `s.toLowerCase().startsWith(prefix.toLowerCase())`. */
  predicate StartsWithIgnoreCase(s: string, prefix: string) {
    Lower(prefix) <= Lower(s)
  }

  /** The position of the first of `inds`, from position `from` on, that `s` starts with. */
  function FirstMatch(s: string, inds: seq<string>, from: nat): (r: Option<nat>)
    ensures r.Some? ==> from <= r.value < |inds| && StartsWithIgnoreCase(s, inds[r.value])
    decreases |inds| - from
  {
    if from >= |inds| then None
    else if StartsWithIgnoreCase(s, inds[from]) then Some(from)
    else FirstMatch(s, inds, from + 1)
  }

  /** `FirstMatch` finds the first match: none before it, and none at all when it finds nothing. */
  lemma {:induction false} FirstMatchIsFirst(s: string, inds: seq<string>, from: nat)
    ensures FirstMatch(s, inds, from).None? <==>
      forall j :: from <= j < |inds| ==> !StartsWithIgnoreCase(s, inds[j])
    ensures FirstMatch(s, inds, from).Some? ==>
      forall j :: from <= j < FirstMatch(s, inds, from).value ==> !StartsWithIgnoreCase(s, inds[j])
    decreases |inds| - from
  {
    if from < |inds| && !StartsWithIgnoreCase(s, inds[from]) {
      FirstMatchIsFirst(s, inds, from + 1);
    }
  }

  /** Removes the lead-in `indicator` from `cleaned`, re-trims, then drops one `:` and re-trims. */
  function StripIndicator(cleaned: string, indicator: string): (r: string)
    ensures NoOuterSpace(r)
    ensures |indicator| <= |cleaned| ==> |r| <= |cleaned| - |indicator|
  {
    var rest := Trim(if |indicator| <= |cleaned| then cleaned[|indicator|..] else "");
    if rest != [] && rest[0] == ':' then Trim(rest[1..]) else rest
  }

  /** The trimmed summary without the first of the lead-ins `inds` it starts with. */
  function CleanedWith(summary: string, inds: seq<string>): (r: string)
    ensures NoOuterSpace(r) && |r| <= |summary|
  {
    var t := Trim(summary);
    match FirstMatch(t, inds, 0)
    case None => t
    case Some(i) => StripIndicator(t, inds[i])
  }

  /** What `validateSummary(summary)` returns. */
  function Cleaned(summary: string): (r: string)
    ensures NoOuterSpace(r) && |r| <= |summary|
  {
    CleanedWith(summary, Indicators)
  }

  /** `validateSummary(summary)`. */
  method ValidateSummary(summary: string) returns (cleaned: string)
    ensures cleaned == Cleaned(summary)
  {
    cleaned := StripLeadIn(summary, Indicators);
  }

  /** The loop of `validateSummary`: try each lead-in in turn and stop after the first that matches. */
  method StripLeadIn(summary: string, inds: seq<string>) returns (cleaned: string)
    ensures cleaned == CleanedWith(summary, inds)
  {
    cleaned := Trim(summary);
    ghost var t := cleaned;
    var i := 0;
    while i < |inds|
      invariant 0 <= i <= |inds|
      invariant cleaned == t && FirstMatch(t, inds, 0) == FirstMatch(t, inds, i)
    {
      var indicator := inds[i];
      if Lower(indicator) <= Lower(cleaned) {
        assert FirstMatch(t, inds, i) == Some(i);
        assert |indicator| == |Lower(indicator)| <= |Lower(cleaned)| == |cleaned|;
        cleaned := Trim(cleaned[|indicator|..]);
        if cleaned != [] && cleaned[0] == ':' {
          cleaned := Trim(cleaned[1..]);
        }
        return;
      }
      i := i + 1;
    }
  }

  /** A summary that starts with no indicator is only trimmed. */
  lemma NoIndicatorOnlyTrims(summary: string)
    requires forall j :: 0 <= j < |Indicators| ==> !StartsWithIgnoreCase(Trim(summary), Indicators[j])
    ensures Cleaned(summary) == Trim(summary)
  {
    FirstMatchIsFirst(Trim(summary), Indicators, 0);
  }

  /** The first indicator in list order that matches is the one removed, and only that one. */
  lemma FirstMatchingIndicatorRemoved(summary: string, inds: seq<string>, i: nat)
    requires i < |inds| && StartsWithIgnoreCase(Trim(summary), inds[i])
    requires forall j :: 0 <= j < i ==> !StartsWithIgnoreCase(Trim(summary), inds[j])
    ensures CleanedWith(summary, inds) == StripIndicator(Trim(summary), inds[i])
  {
    var t := Trim(summary);
    FirstMatchIsFirst(t, inds, 0);
    assert FirstMatch(t, inds, 0).Some?;
    assert FirstMatch(t, inds, 0).value == i;
  }

  /**
   * A summary led by "Summary:", in any letter case, and a space loses that tag, once: the text after
   * it is returned as it is, so long as it does not itself start with a colon.
   */
  lemma SummaryLabelRemoved(tag: string, body: string)
    requires Lower(tag) == "summary:"
    requires body != [] && NoOuterSpace(body) && body[0] != ':'
    ensures Cleaned(tag + " " + body) == body
  {
    TagMatchesThirdIndicator(tag, body);
    LeadInRemoved(tag, body, Indicators, 2);
  }

  /** A trimmed summary that starts with `inds[i]` and no earlier lead-in, then a space, keeps what follows. */
  lemma LeadInRemoved(tag: string, body: string, inds: seq<string>, i: nat)
    requires i < |inds| && |tag| == |inds[i]| && tag != [] && !IsSpace(tag[0])
    requires StartsWithIgnoreCase(tag + " " + body, inds[i])
    requires forall j :: 0 <= j < i ==> !StartsWithIgnoreCase(tag + " " + body, inds[j])
    requires body != [] && NoOuterSpace(body) && body[0] != ':'
    ensures CleanedWith(tag + " " + body, inds) == body
  {
    var t := tag + " " + body;
    assert Trim(t) == t by {
      TrimOfTrimmed(t);
    }
    FirstMatchingIndicatorRemoved(t, inds, i);
    StripTag(tag, body, inds[i]);
  }

  /** Dropping a lead-in of the tag's length, then the space after it, leaves the body. */
  lemma StripTag(tag: string, body: string, indicator: string)
    requires |tag| == |indicator|
    requires body != [] && NoOuterSpace(body) && body[0] != ':'
    ensures StripIndicator(tag + " " + body, indicator) == body
  {
    assert (tag + " " + body)[|tag|..] == " " + body;
    TrimPadded(" ", body);
  }

  /** After the lead-in, a colon and the space after it are removed as well. */
  lemma ColonAfterLeadInRemoved(indicator: string, body: string)
    requires body != [] && NoOuterSpace(body) && body[0] != ':'
    ensures StripIndicator(indicator + ": " + body, indicator) == body
  {
    LeadInDropped(indicator, ": ", body);
    ColonLed(" " + body);
    assert ": " + body == ":" + (" " + body);
    TrimPadded(" ", body);
  }

  /** Only one colon is removed after the lead-in: a second one stays. */
  lemma SecondColonKept(indicator: string, body: string)
    requires body != [] && NoOuterSpace(body)
    ensures StripIndicator(indicator + "::" + body, indicator) == ":" + body
  {
    LeadInDropped(indicator, "::", body);
    ColonLed(":" + body);
    assert "::" + body == ":" + (":" + body);
    ColonLed(body);
    TrimOfTrimmed(":" + body);
  }

  lemma LeadInDropped(indicator: string, mid: string, body: string)
    ensures (indicator + mid + body)[|indicator|..] == mid + body
  {
  }

  /** A colon in front of `s` is kept by `trim`, and is the first character. */
  lemma ColonLed(s: string)
    requires s != [] && !IsSpace(s[|s| - 1])
    ensures Trim(":" + s) == ":" + s && (":" + s)[0] == ':' && (":" + s)[1..] == s
  {
    TrimOfTrimmed(":" + s);
  }

  /** Of the lead-ins, a "Summary:" tag matches the third and neither of the two before it. */
  lemma TagMatchesThirdIndicator(tag: string, body: string)
    requires Lower(tag) == "summary:"
    ensures |tag| == |Indicators[2]| && tag != [] && !IsSpace(tag[0])
    ensures StartsWithIgnoreCase(tag + " " + body, Indicators[2])
    ensures forall j :: 0 <= j < 2 ==> !StartsWithIgnoreCase(tag + " " + body, Indicators[j])
  {
    assert tag + " " + body == tag + (" " + body);
    LowerAppend(tag, " " + body);
    assert Lower(tag + " " + body)[0] == 's';
    assert Lower(Indicators[0])[0] == 'h' && Lower(Indicators[1])[0] == 'h';
  }

  /** Worked example: the tag is removed from "Summary: The text covers X and Y.". */
  lemma LabelExample()
    ensures Cleaned("Summary: The text covers X and Y.") == "The text covers X and Y."
  {
    var s := "Summary: The text covers X and Y.";
    var body := "The text covers X and Y.";
    assert s[..8] == "Summary:" && s[8] == ' ' && s[9..] == body;
    assert s == s[..8] + [s[8]] + s[9..];
    SummaryLabelRemoved("Summary:", body);
  }

  /** Only one indicator is removed, so cleaning is not idempotent. */
  lemma CleanedNotIdempotent()
    ensures Cleaned("Summary: Summary: x") == "Summary: x"
    ensures Cleaned(Cleaned("Summary: Summary: x")) == "x"
  {
    RepeatedTagRemovedOnce();
    SingleTagRemoved();
  }

  lemma RepeatedTagRemovedOnce()
    ensures Cleaned("Summary: Summary: x") == "Summary: x"
  {
    assert "Summary: Summary: x" == "Summary:" + " " + "Summary: x";
    SummaryLabelRemoved("Summary:", "Summary: x");
  }

  lemma SingleTagRemoved()
    ensures Cleaned("Summary: x") == "x"
  {
    assert "Summary: x" == "Summary:" + " " + "x";
    SummaryLabelRemoved("Summary:", "x");
  }
}
