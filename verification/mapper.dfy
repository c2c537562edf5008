/** The decision engine: out-of-domain guard, rule scorer, best-leaf
    selection, gating, escalation to an injected classifier, and the
    assembled result. */
module Mapper {
  import opened Taxonomy
  import opened Text

  /** The result handed back to the caller. */
  datatype Mapping = Mapping(category: string, confidence: real, reasoning: string)

  /** What the external classifier answers for a blurb. */
  datatype LlmReply = LlmReply(category: string, reasoning: string)

  /** The cue phrases of one leaf, in the order they are tried. */
  datatype LeafCues = LeafCues(leaf: string, keywords: seq<string>)

  /** The sentinel category meaning "no taxonomy leaf applies". */
  const Unmapped: string := "[UNMAPPED]"

  /** Keyword signals per taxonomy leaf, in declaration order. */
  const KeywordMap: seq<LeafCues> := [
    LeafCues("Enemies-to-Lovers", ["hate", "hated", "rivals", "enemy", "cubicle"]),
    LeafCues("Second Chance", ["again", "years later", "after decades", "met again"]),
    LeafCues("Espionage", ["agent", "spy", "kgb", "kremlin", "classified", "drive", "recover"]),
    LeafCues("Legal Thriller", ["lawyer", "judge", "court", "trial", "cross-examination"]),
    LeafCues("Gothic", ["victorian", "mansion", "whispering", "dark past"]),
    LeafCues("Slasher", ["masked killer", "stalks", "teenagers", "camp"]),
    LeafCues("Cyberpunk", ["neon", "ai", "future", "megacity"]),
    LeafCues("Hard Sci-Fi", ["physics", "ftl", "stasis", "metabolic"])
  ]

  /** Phrases that mark a blurb as instructional rather than narrative. */
  const NonFictionHints: seq<string> := ["how to", "recipe", "mix", "build", "bake", "instructions", "cook"]

  /** A best score below this is "weak" and is referred to the classifier. */
  const LlmConfidenceThreshold: int := 3

  /** Score added by one matching cue phrase (a context hit). */
  const CueWeight: int := 3

  /** Score at and above which rule confidence saturates at 1. */
  const SaturationScore: int := 6

  /** Confidence given to a category adopted from the classifier. */
  const EscalatedConfidence: real := 0.6

  const InstructionalReason: string := "Detected instructional or non-fictional language."
  const TagsOnlyReason: string := "Tags alone are insufficient without contextual story signals."
  const NoSignalReason: string := "No matching signals found in tags or story text."
  const EscalationReason: string := "Rule-based signals insufficient; escalating to LLM."
  const RuleReason: string := "Rule-based match based on contextual signals."

  const Instructional: Mapping := Mapping(Unmapped, 0.0, InstructionalReason)
  const TagsOnly: Mapping := Mapping(Unmapped, 0.0, TagsOnlyReason)
  const NoSignal: Mapping := Mapping(Unmapped, 0.0, NoSignalReason)

  // ---------------------------------------------------------------------
  // Out-of-domain guard
  // ---------------------------------------------------------------------

  /** Some non-fiction hint occurs in the (lower-cased) text as a substring,
      so a hint also fires inside a longer word. */
  predicate OutOfDomain(text: string) {
    exists k :: 0 <= k < |NonFictionHints| && Contains(text, NonFictionHints[k])
  }

  /** Guard precedence: a blurb in which a hint occurs, in any letter case
      ("How To", "MIX") and also inside a longer word ("mixed"), is out of
      domain, whatever else it says. */
  lemma HintAnywhereIsOutOfDomain(before: string, phrase: string, after: string)
    requires Lower(phrase) in NonFictionHints
    ensures OutOfDomain(Lower(before + phrase + after))
  {
    var hint := Lower(phrase);
    var text := Lower(before + phrase + after);
    LowerConcat(before + phrase, after);
    LowerConcat(before, phrase);
    assert text == Lower(before) + hint + Lower(after);
    assert text[|before|..][..|hint|] == hint;
    assert Contains(text, hint);
  }

  // ---------------------------------------------------------------------
  // Rule scorer: the specification of what the scoring loops compute
  // ---------------------------------------------------------------------

  /** A multi-word cue (one holding a space) matches as a substring of the
      text; a single-word cue matches only a whole word. */
  predicate CueMatches(keyword: string, text: string) {
    if ' ' in keyword then Contains(text, keyword) else keyword in Words(text)
  }

  /** The number of cues in the list that match the text: each cue counts
      at most once, however often it recurs. */
  function CountMatches(keywords: seq<string>, text: string): (n: nat)
    ensures n <= |keywords|
  {
    if keywords == [] then 0
    else
      var last := keywords[|keywords| - 1];
      CountMatches(keywords[..|keywords| - 1], text) + (if CueMatches(last, text) then 1 else 0)
  }

  /** The context hits the entries give to `leaf`. */
  function HitsIn(entries: seq<LeafCues>, leaf: string, text: string): nat {
    if entries == [] then 0
    else
      var last := entries[|entries| - 1];
      HitsIn(entries[..|entries| - 1], leaf, text)
        + (if last.leaf == leaf then CountMatches(last.keywords, text) else 0)
  }

  /** The context-hit count of a leaf: textual evidence only, tags play no part. */
  function ContextHits(text: string, leaf: string): nat {
    HitsIn(KeywordMap, leaf, text)
  }

  /** A tag names a leaf when, lower-cased, it equals one word of the
      leaf's lower-cased name. */
  predicate TagNamesLeaf(tag: string, leaf: string) {
    Lower(tag) in Words(Lower(leaf))
  }

  /** A tag that is empty or holds a space (such as " sad", left over from
      splitting a comma-separated list) never names a leaf. */
  lemma BlankOrSpacedTagNeverVotes(tag: string, leaf: string)
    requires tag == [] || exists j :: 0 <= j < |tag| && IsSpace(tag[j])
    ensures !TagNamesLeaf(tag, leaf)
  {
    WordsAreWords(Lower(leaf));
    if tag != [] {
      var j :| 0 <= j < |tag| && IsSpace(tag[j]);
      assert IsSpace(Lower(tag)[j]);
    }
  }

  /** The number of tags that name the leaf. */
  function TagVotes(tags: seq<string>, leaf: string): (n: nat)
    ensures n <= |tags|
  {
    if tags == [] then 0
    else
      var last := tags[|tags| - 1];
      TagVotes(tags[..|tags| - 1], leaf) + (if TagNamesLeaf(last, leaf) then 1 else 0)
  }

  /** The evidence score of a leaf: three per context hit, one per tag vote. */
  function Score(tags: seq<string>, text: string, leaf: string): int {
    CueWeight * ContextHits(text, leaf) + TagVotes(tags, leaf)
  }

  /** The leaf is valid and no valid leaf scores higher. */
  predicate IsBest(tags: seq<string>, text: string, leaf: string) {
    leaf in ValidLeaves && forall other :: other in ValidLeaves ==> Score(tags, text, other) <= Score(tags, text, leaf)
  }

  // ---------------------------------------------------------------------
  // Facts about the signal table
  // ---------------------------------------------------------------------

  /** The leaves that have a cue list. */
  function CueLeaves(): set<string> {
    set k | 0 <= k < |KeywordMap| :: KeywordMap[k].leaf
  }

  /** The cues listed for `leaf` by the entries; none when it has no entry. */
  function CuesIn(entries: seq<LeafCues>, leaf: string): seq<string> {
    if entries == [] then []
    else if entries[|entries| - 1].leaf == leaf then entries[|entries| - 1].keywords
    else CuesIn(entries[..|entries| - 1], leaf)
  }

  /** No two entries are for the same leaf. */
  predicate DistinctLeaves(entries: seq<LeafCues>) {
    forall i, j :: 0 <= i < j < |entries| ==> entries[i].leaf != entries[j].leaf
  }

  /** The eight leaves that have a cue list, written out. */
  lemma CueLeavesListed()
    ensures CueLeaves() == {"Enemies-to-Lovers", "Second Chance", "Espionage", "Legal Thriller",
      "Gothic", "Slasher", "Cyberpunk", "Hard Sci-Fi"}
  {
    assert |KeywordMap| == 8;
    assert KeywordMap[0].leaf == "Enemies-to-Lovers" && KeywordMap[1].leaf == "Second Chance";
    assert KeywordMap[2].leaf == "Espionage" && KeywordMap[3].leaf == "Legal Thriller";
    assert KeywordMap[4].leaf == "Gothic" && KeywordMap[5].leaf == "Slasher";
    assert KeywordMap[6].leaf == "Cyberpunk" && KeywordMap[7].leaf == "Hard Sci-Fi";
  }

  /** No two entries of the signal table are for the same leaf. */
  lemma CueKeysDistinct()
    ensures DistinctLeaves(KeywordMap)
  {
  }

  /** Every key of the signal table is a valid leaf. */
  lemma CueKeysAreLeaves()
    ensures forall k :: 0 <= k < |KeywordMap| ==> KeywordMap[k].leaf in ValidLeaves
  {
    SignalTableShape();
    assert forall k :: 0 <= k < |KeywordMap| ==> KeywordMap[k].leaf in CueLeaves();
  }

  /** Every key of the signal table is a valid leaf, no key occurs twice,
      and exactly four leaves have no cue list. */
  lemma SignalTableShape()
    ensures CueLeaves() <= ValidLeaves
    ensures DistinctLeaves(KeywordMap)
    ensures ValidLeaves - CueLeaves() == {"Slow-burn", "Psychological", "Space Opera", "Psychological Horror"}
  {
    LeafSet();
    CueLeavesListed();
    CueKeysDistinct();
    LeavesWithoutCues();
  }

  /** Removing the eight cue leaves from the twelve names leaves four. */
  lemma LeavesWithoutCues()
    ensures LeafNames() - {"Enemies-to-Lovers", "Second Chance", "Espionage", "Legal Thriller",
      "Gothic", "Slasher", "Cyberpunk", "Hard Sci-Fi"}
      == {"Slow-burn", "Psychological", "Space Opera", "Psychological Horror"}
  {
  }

  /** A leaf without an entry gets no context hits from the entries. */
  lemma {:induction false} HitsWithoutEntry(entries: seq<LeafCues>, leaf: string, text: string)
    requires forall k :: 0 <= k < |entries| ==> entries[k].leaf != leaf
    ensures HitsIn(entries, leaf, text) == 0
  {
    if entries != [] {
      HitsWithoutEntry(entries[..|entries| - 1], leaf, text);
    }
  }

  /** With one entry per leaf, a leaf's context hits are the matches among
      its own cues. */
  lemma {:induction false} HitsAreOwnCueMatches(entries: seq<LeafCues>, leaf: string, text: string)
    requires DistinctLeaves(entries)
    ensures HitsIn(entries, leaf, text) == CountMatches(CuesIn(entries, leaf), text)
  {
    if entries != [] {
      var init, last := entries[..|entries| - 1], entries[|entries| - 1];
      if last.leaf == leaf {
        HitsWithoutEntry(init, leaf, text);
      } else {
        HitsAreOwnCueMatches(init, leaf, text);
      }
    }
  }

  /** A leaf's context hits count the matching cues of its own list, so they
      never exceed the length of that list; a leaf with no cue list (Slow-burn,
      Psychological, Space Opera, Psychological Horror) has none. */
  lemma ContextHitsBound(text: string, leaf: string)
    ensures ContextHits(text, leaf) == CountMatches(CuesIn(KeywordMap, leaf), text)
    ensures ContextHits(text, leaf) <= |CuesIn(KeywordMap, leaf)|
    ensures leaf !in CueLeaves() ==> ContextHits(text, leaf) == 0
  {
    SignalTableShape();
    HitsAreOwnCueMatches(KeywordMap, leaf, text);
    if leaf !in CueLeaves() {
      HitsWithoutEntry(KeywordMap, leaf, text);
    }
  }

  // ---------------------------------------------------------------------
  // Rule scorer and best-leaf selection
  // ---------------------------------------------------------------------

  /** Taking one more entry adds its matches to its own leaf's hits. */
  lemma HitsInExtend(entries: seq<LeafCues>, i: nat, leaf: string, text: string)
    requires i < |entries|
    ensures HitsIn(entries[..i + 1], leaf, text) == HitsIn(entries[..i], leaf, text)
      + (if entries[i].leaf == leaf then CountMatches(entries[i].keywords, text) else 0)
  {
    assert entries[..i + 1][..i] == entries[..i];
  }

  /** Taking one more cue adds one match exactly when that cue matches. */
  lemma CountMatchesExtend(keywords: seq<string>, j: nat, text: string)
    requires j < |keywords|
    ensures CountMatches(keywords[..j + 1], text)
      == CountMatches(keywords[..j], text) + (if CueMatches(keywords[j], text) then 1 else 0)
  {
    assert keywords[..j + 1][..j] == keywords[..j];
  }

  /** Taking one more tag adds one vote exactly when that tag names the leaf. */
  lemma TagVotesExtend(tags: seq<string>, t: nat, leaf: string)
    requires t < |tags|
    ensures TagVotes(tags[..t + 1], leaf) == TagVotes(tags[..t], leaf) + (if TagNamesLeaf(tags[t], leaf) then 1 else 0)
  {
    assert tags[..t + 1][..t] == tags[..t];
  }

  /** Builds the score board: the context-hit counter and the score of every
      valid leaf, first from the cues (three points and one hit each), then
      from the tags (one point each, no hit). */
  method ScoreStory(tags: seq<string>, text: string) returns (scores: map<string, int>, hits: map<string, int>)
    ensures scores.Keys == ValidLeaves && hits.Keys == ValidLeaves
    ensures forall l :: l in ValidLeaves ==> hits[l] == ContextHits(text, l)
    ensures forall l :: l in ValidLeaves ==> scores[l] == CueWeight * hits[l] + TagVotes(tags, l)
  {
    scores := map l | l in ValidLeaves :: 0;
    hits := map l | l in ValidLeaves :: 0;
    CueKeysAreLeaves();
    scores, hits := AddContextSignals(text, scores, hits);
    scores := AddTagSignals(tags, scores);
  }

  /** The strong signals: every matching cue adds three to its leaf's score
      and one to its leaf's context-hit counter. */
  method AddContextSignals(text: string, scores0: map<string, int>, hits0: map<string, int>)
    returns (scores: map<string, int>, hits: map<string, int>)
    requires scores0.Keys == hits0.Keys
    requires forall k :: 0 <= k < |KeywordMap| ==> KeywordMap[k].leaf in hits0
    ensures scores.Keys == scores0.Keys && hits.Keys == hits0.Keys
    ensures forall l :: l in hits ==> hits[l] == hits0[l] + ContextHits(text, l)
    ensures forall l :: l in hits ==> scores[l] == scores0[l] + CueWeight * ContextHits(text, l)
  {
    var tokens := set w | w in Words(text);
    scores, hits := scores0, hits0;
    var i := 0;
    while i < |KeywordMap|
      invariant 0 <= i <= |KeywordMap|
      invariant scores.Keys == scores0.Keys && hits.Keys == hits0.Keys
      invariant forall l :: l in hits ==> hits[l] == hits0[l] + HitsIn(KeywordMap[..i], l, text)
      invariant forall l :: l in hits ==> scores[l] == scores0[l] + CueWeight * HitsIn(KeywordMap[..i], l, text)
    {
      scores, hits := AddLeafSignals(KeywordMap[i], text, tokens, scores, hits);
      forall l | l in hits
        ensures hits[l] == hits0[l] + HitsIn(KeywordMap[..i + 1], l, text)
        ensures scores[l] == scores0[l] + CueWeight * HitsIn(KeywordMap[..i + 1], l, text)
      {
        HitsInExtend(KeywordMap, i, l, text);
      }
      i := i + 1;
    }
    assert KeywordMap[..i] == KeywordMap;
  }

  /** The cues of one leaf, tried in order: a multi-word cue by substring
      search in the text, a single-word cue by membership in the word set.
      Each match adds three to the leaf's score and one to its hit counter;
      no other leaf changes. */
  method AddLeafSignals(entry: LeafCues, text: string, tokens: set<string>,
                        scores0: map<string, int>, hits0: map<string, int>)
    returns (scores: map<string, int>, hits: map<string, int>)
    requires tokens == set w | w in Words(text)
    requires entry.leaf in scores0 && entry.leaf in hits0
    ensures scores.Keys == scores0.Keys && hits.Keys == hits0.Keys
    ensures hits == hits0[entry.leaf := hits0[entry.leaf] + CountMatches(entry.keywords, text)]
    ensures scores == scores0[entry.leaf := scores0[entry.leaf] + CueWeight * CountMatches(entry.keywords, text)]
  {
    scores, hits := scores0, hits0;
    var j := 0;
    while j < |entry.keywords|
      invariant 0 <= j <= |entry.keywords|
      invariant hits == hits0[entry.leaf := hits0[entry.leaf] + CountMatches(entry.keywords[..j], text)]
      invariant scores == scores0[entry.leaf := scores0[entry.leaf] + CueWeight * CountMatches(entry.keywords[..j], text)]
    {
      var keyword := entry.keywords[j];
      if ' ' in keyword {
        if Contains(text, keyword) {
          scores := scores[entry.leaf := scores[entry.leaf] + CueWeight];
          hits := hits[entry.leaf := hits[entry.leaf] + 1];
        }
      } else {
        if keyword in tokens {
          scores := scores[entry.leaf := scores[entry.leaf] + CueWeight];
          hits := hits[entry.leaf := hits[entry.leaf] + 1];
        }
      }
      CountMatchesExtend(entry.keywords, j, text);
      j := j + 1;
    }
    assert entry.keywords[..j] == entry.keywords;
  }

  /** The weak signals: every tag that names a leaf adds one to that leaf's
      score; the context-hit counters are not touched. */
  method AddTagSignals(tags: seq<string>, scores0: map<string, int>) returns (scores: map<string, int>)
    ensures scores.Keys == scores0.Keys
    ensures forall l :: l in scores ==> scores[l] == scores0[l] + TagVotes(tags, l)
  {
    scores := scores0;
    var t := 0;
    while t < |tags|
      invariant 0 <= t <= |tags|
      invariant scores.Keys == scores0.Keys
      invariant forall l :: l in scores ==> scores[l] == scores0[l] + TagVotes(tags[..t], l)
    {
      var tag := Lower(tags[t]);
      var rest := scores.Keys;
      while rest != {}
        invariant rest <= scores.Keys
        invariant scores.Keys == scores0.Keys
        invariant forall l :: l in scores ==>
          scores[l] == scores0[l] + TagVotes(tags[..t], l) + (if l !in rest && TagNamesLeaf(tags[t], l) then 1 else 0)
        decreases rest
      {
        var leaf :| leaf in rest;
        if tag in Words(Lower(leaf)) {
          scores := scores[leaf := scores[leaf] + 1];
        }
        rest := rest - {leaf};
      }
      forall l | l in scores
        ensures scores[l] == scores0[l] + TagVotes(tags[..t + 1], l)
      {
        TagVotesExtend(tags, t, l);
      }
      t := t + 1;
    }
    assert tags[..t] == tags;
  }

  /** A leaf of maximal score. The keys are visited in no fixed order, as the
      source's dictionary order follows the string hash; among equal scores
      the first one visited is kept. */
  method BestLeaf(scores: map<string, int>) returns (best: string)
    requires scores.Keys != {}
    ensures best in scores
    ensures forall l :: l in scores ==> scores[l] <= scores[best]
  {
    var rest := scores.Keys;
    best :| best in rest;
    rest := rest - {best};
    while rest != {}
      invariant rest <= scores.Keys
      invariant best in scores
      invariant forall l :: l in scores && l !in rest ==> scores[l] <= scores[best]
      decreases rest
    {
      var l :| l in rest;
      if scores[l] > scores[best] {
        best := l;
      }
      rest := rest - {l};
    }
  }

  // ---------------------------------------------------------------------
  // Gating, escalation and result assembly
  // ---------------------------------------------------------------------

  /** Rule confidence min(1, score / 6): linear in the score and saturating
      at 1 from two context hits on. */
  function RuleConfidence(score: int): (c: real)
    ensures c <= 1.0
    ensures c == 1.0 <==> SaturationScore <= score
    ensures 0 <= score ==> 0.0 <= c
    ensures CueWeight <= score ==> 0.5 <= c
    ensures score < SaturationScore ==> c * SaturationScore as real == score as real
  {
    if 1.0 <= score as real / SaturationScore as real then 1.0 else score as real / SaturationScore as real
  }

  /** The result of the high-confidence rule path for the chosen leaf. */
  function RuleMapping(best: string, score: int): Mapping {
    Mapping(best, RuleConfidence(score), RuleReason)
  }

  /** The gating and escalation policy, as written: reject when the best
      leaf has no context hit; report no signal at a zero score; below the
      threshold ask the classifier and adopt its answer only if it is a
      valid leaf; otherwise return the rule result. The classifier's own
      reasoning is always replaced. */
  function Decide(best: string, score: int, hits: int, blurb: string, classify: string -> LlmReply): (r: Mapping)
    requires best in ValidLeaves
    requires 0 <= score
    ensures r.category == Unmapped || r.category in ValidLeaves
    ensures 0.0 <= r.confidence <= 1.0
    ensures |r.reasoning| > 0
    ensures r == TagsOnly <==> hits == 0
    ensures hits != 0 && score == 0 ==> r == NoSignal
    ensures r.category != Unmapped ==> hits != 0 && score != 0
    ensures hits != 0 && 0 < score < LlmConfidenceThreshold ==>
      r == if classify(blurb).category in ValidLeaves
           then Mapping(classify(blurb).category, EscalatedConfidence, EscalationReason)
           else RuleMapping(best, score)
    ensures hits != 0 && LlmConfidenceThreshold <= score ==> r == RuleMapping(best, score)
  {
    MarkerIsNotALeaf();
    if hits == 0 then TagsOnly
    else if score == 0 then NoSignal
    else if score < LlmConfidenceThreshold && classify(blurb).category in ValidLeaves then
      Mapping(classify(blurb).category, EscalatedConfidence, EscalationReason)
    else RuleMapping(best, score)
  }

  /** On a score board, where a leaf's score is three per context hit plus
      its tag votes, the zero-score and escalation branches cannot be
      reached: a leaf with a context hit scores at least 3. The classifier
      is therefore never consulted, and a returned leaf has confidence in
      [0.5, 1]. */
  lemma ScoreBoardNeverEscalates(best: string, hits: nat, votes: nat, blurb: string, classify: string -> LlmReply)
    requires best in ValidLeaves
    ensures hits == 0 ==> Decide(best, CueWeight * hits + votes, hits, blurb, classify) == TagsOnly
    ensures hits != 0 ==> LlmConfidenceThreshold <= CueWeight * hits + votes
    ensures hits != 0 ==>
      Decide(best, CueWeight * hits + votes, hits, blurb, classify) == RuleMapping(best, CueWeight * hits + votes)
    ensures hits != 0 ==> 0.5 <= RuleConfidence(CueWeight * hits + votes)
  {
  }

  /** Classifies a story from its tags and blurb. */
  method MapStory(tags: seq<string>, blurb: string, classify: string -> LlmReply) returns (r: Mapping)
    ensures r.category == Unmapped || r.category in ValidLeaves
    ensures 0.0 <= r.confidence <= 1.0 && |r.reasoning| > 0
    ensures r == Instructional <==> OutOfDomain(Lower(blurb))
    ensures r.category != Unmapped ==>
      IsBest(tags, Lower(blurb), r.category)
      && ContextHits(Lower(blurb), r.category) > 0
      && r.category in CueLeaves()
      && r == RuleMapping(r.category, Score(tags, Lower(blurb), r.category))
      && 0.5 <= r.confidence
    ensures r.category == Unmapped && !OutOfDomain(Lower(blurb)) ==>
      r == TagsOnly && exists l :: IsBest(tags, Lower(blurb), l) && ContextHits(Lower(blurb), l) == 0
    ensures !OutOfDomain(Lower(blurb)) && (forall l :: l in ValidLeaves ==> ContextHits(Lower(blurb), l) == 0) ==>
      r == TagsOnly
    ensures r.reasoning != NoSignalReason && r.reasoning != EscalationReason
  {
    var text := Lower(blurb);

    // 1. Out-of-domain guard
    if OutOfDomain(text) {
      return Instructional;
    }

    // 2. Rule-based scoring
    var scores, hits := ScoreStory(tags, text);
    ValidLeavesNonEmpty();
    var best := BestLeaf(scores);
    ScoreBoardNeverEscalates(best, hits[best], TagVotes(tags, best), blurb, classify);
    ContextHitsBound(text, best);

    // 3. Gating, escalation and the rule result
    r := Decide(best, scores[best], hits[best], blurb, classify);
  }
}
