# Story genre mapper — a Dafny model of the decision engine

The mapper takes a list of user tags and a story blurb and returns exactly one
leaf of a fixed genre taxonomy, or the marker `"[UNMAPPED]"`, together with a
confidence and a reasoning string. It works in this order:

1. The **out-of-domain guard** rejects instructional text. It looks for any
   non-fiction hint ("how to", "recipe", "mix", ...) as a substring of the
   lower-cased blurb.
2. The **rule scorer** fills a score board. Each matching cue phrase adds 3
   to its leaf's score and 1 to that leaf's context-hit counter. Each tag that
   equals one word of a leaf's name adds 1 to that leaf's score only.
3. The **best leaf** is a leaf of maximal score.
4. **Gating.** The result is unmapped when the best leaf has no context hit,
   or when its score is zero.
5. **Escalation.** A score below 3 asks an external classifier. Its answer
   is kept only if it is a valid leaf.
6. Otherwise the **rule result** is returned, with confidence `min(1, score/6)`.

Files:

- `taxonomy.dfy` (module `Taxonomy`) is the taxonomy tree and its
  flattening into `ValidLeaves`. It is pure: constants, functions and lemmas.
- `text.dfy` (module `Text`) holds the string operations the mapper uses:
  ASCII lower-casing, splitting on whitespace, and substring search.
- `mapper.dfy` (module `Mapper`) holds the signal tables, the guard, and the
  scoring loops. The loops are methods that update local maps, just as the
  source updates its `scores` and `context_hits` dictionaries. Each method is
  proved against recursive specification functions (`ContextHits`,
  `TagVotes`, `Score`). The gating and escalation branches form a pure
  function, `Decide`, and `MapStory` puts the steps together.

The external classifier is passed to `MapStory` as a function parameter
`classify: string -> LlmReply`. `MapStory` does not require anything of it,
because the membership check the core makes before adopting an answer is
enough for the category-range guarantee.

The main result is about the code as written. A context hit is worth 3
points, so once the tag-only gate is passed the best score is at least 3.
That makes the zero-score branch and the escalation branch unreachable
(`ScoreBoardNeverEscalates`). `MapStory` therefore never returns their
reasoning strings, and what it returns is stated without reference to
`classify`.

Three behaviours of the code as written are easy to misread:

- **Escalation.** The threshold test at mapper.py:113 suggests that a best
  score of 1 or 2 asks the classifier. It cannot happen: a best leaf with a
  score below 3 has no context hit, so the tag-only gate at mapper.py:96
  has already rejected it.
- **Tie-break.** Among leaves with equal scores, `max` at mapper.py:92
  returns the first key of a dictionary built from a set. That depends on
  string hashing, not on the order of the taxonomy. `BestLeaf` visits the
  keys in an unspecified order and is proved only to return a maximiser.
- **Overlapping cues.** In a blurb such as "met again after decades",
  counting only the two phrases "met again" and "after decades" would give
  a score of 6. The single-word cue "again" also matches as a token, so
  there are three context hits and the score is 9. The confidence is 1.0
  either way.

## Model

| member | source | states |
|---|---|---|
| `Taxonomy.LeafList` | taxonomy.py:12-16 | definition: the leaves of the subgenres one after another; `ValidLeaves` is the set of its entries |
| `Taxonomy.LeafListMembership` | taxonomy.py:12-16 | a name occurs in the flattened leaf list exactly when some subgenre's list holds it |
| `Taxonomy.ValidLeafMembership` | taxonomy.py:12-16 | a name is in `VALID_LEAVES` exactly when a subgenre under "Fiction" lists it |
| `Taxonomy.LeafSet` | taxonomy.py:3-16 | the leaf set is exactly the twelve names of the tree, it has 12 members, and the flattened tree has exactly as many entries, so no leaf name repeats anywhere in the tree |
| `Taxonomy.ValidLeavesNonEmpty` | taxonomy.py:18 | the start-up check holds: the leaf set is not empty |
| `Taxonomy.MarkerIsNotALeaf` | taxonomy.py:3-16 | "[UNMAPPED]", "Fiction" and every subgenre name are not leaves |
| `Text.LowerChar` | mapper.py:56 | no upper-case ASCII letter survives; letters stay letters and non-letters are kept; whitespace stays whitespace, so word boundaries do not move |
| `Text.Lower` | mapper.py:56 | the lower-cased text has the same length, no upper-case ASCII letter, and whitespace at exactly the same positions |
| `Text.LowerConcat` | mapper.py:56-60 | lower-casing a concatenation lower-cases each part in place, so a hint lower-cased on its own is found in the lower-cased blurb |
| `Text.WordLength` | mapper.py:57 | the leading run it measures holds no space and ends at the end of the text or at a space; it is non-empty when the text starts with a non-space |
| `Text.Words` | mapper.py:57 | definition: the maximal runs of non-space characters, in order, as `str.split()` with no argument |
| `Text.WordsAreWords` | mapper.py:57 | splitting never yields an empty string or a string holding a space |
| `Text.Contains` | mapper.py:60 | definition: `part` is a prefix of some suffix of the text, as `in` on strings |
| `Text.ContainsSpan` | mapper.py:75 | the text contains `part` exactly when an equal-length slice of the text equals it |
| `Mapper.OutOfDomain` | mapper.py:60 | definition: some non-fiction hint occurs in the lower-cased text |
| `Mapper.HintAnywhereIsOutOfDomain` | mapper.py:56-65 | a blurb containing a non-fiction hint in any letter case, even inside a longer word such as "mixed", trips the guard whatever surrounds it |
| `Mapper.SignalTableShape` | mapper.py:11-20 | every cue key is a valid leaf, no key repeats, and exactly Slow-burn, Psychological, Space Opera and Psychological Horror have no cue list |
| `Mapper.CueKeysAreLeaves` | mapper.py:11-20 | every key of the signal table is in the leaf set, so the score updates never meet an unknown key |
| `Mapper.CountMatches` | mapper.py:73-81 | each cue contributes at most one match, however often it recurs, so the hits never exceed the number of cues |
| `Mapper.HitsAreOwnCueMatches` | mapper.py:72-81 | with one entry per leaf, a leaf's hits are the matches among its own cues |
| `Mapper.ContextHitsBound` | mapper.py:72-81 | a leaf's context hits are the matches among its own cues, at most their number, and zero for a leaf without cues |
| `Mapper.CueMatches` | mapper.py:74-81 | definition: a cue with a space matches as a substring, any other cue as one of the words |
| `Mapper.TagNamesLeaf` | mapper.py:87 | definition: the lower-cased tag is one of the words of the lower-cased leaf name |
| `Mapper.BlankOrSpacedTagNeverVotes` | mapper.py:87 | an empty tag, or one holding a space such as " sad" from a comma-separated list, names no leaf |
| `Mapper.TagVotes` | mapper.py:85-90 | a leaf gets at most one vote per tag |
| `Mapper.AddLeafSignals` | mapper.py:73-81 | one leaf's cue loop adds 3 to its score and 1 to its hits per matching cue (multi-word cues by substring, single words by token), leaving every other leaf unchanged |
| `Mapper.AddContextSignals` | mapper.py:72-81 | after the cue loops every leaf's hits have grown by its context hits and its score by three times that |
| `Mapper.AddTagSignals` | mapper.py:85-90 | after the tag loops every leaf's score has grown by the number of tags naming it; the keys are unchanged |
| `Mapper.ScoreStory` | mapper.py:68-90 | the board covers exactly the valid leaves; hits equal the context hits and do not depend on tags; score = 3 × hits + tag votes |
| `Mapper.BestLeaf` | mapper.py:92 | the chosen key is on the board and no key scores higher |
| `Mapper.RuleConfidence` | mapper.py:132 | confidence is at most 1, non-negative for a non-negative score, exactly 1 from score 6 on, at least 0.5 from score 3 on, and score/6 below 6 |
| `Mapper.RuleMapping` | mapper.py:129-133 | definition: the chosen leaf, the rule reason and `RuleConfidence` of its score |
| `Mapper.Decide` | mapper.py:93-133 | for any classifier the category is the marker or a valid leaf and the confidence lies in [0, 1]; tag-only rejection happens exactly at zero hits; with hits but a zero score the no-signal result (marker, 0.0) is returned; in the escalation branch a valid answer gets confidence 0.6 and an invalid one falls through to the rule result |
| `Mapper.ScoreBoardNeverEscalates` | mapper.py:96-126 | on a board where score = 3 × hits + votes, zero hits give the tag-only result and otherwise the score is at least 3, the rule result is returned with confidence at least 0.5, and the classifier is not consulted |
| `Mapper.MapStory` | mapper.py:55-138 | the category is the marker or a valid leaf; confidence is in [0, 1]; the guard result is returned exactly when a hint occurs; a returned leaf is a maximiser with a context hit and a cue list, and has confidence min(1, score/6) ≥ 0.5; an unmapped answer past the guard is the tag-only rejection of a maximiser with no context hit; the zero-score and escalation reasons are never returned |

## Left out

- The user interface (app.py) is left out: rendering, the golden-set table and the colour thresholds. Its input checks (a tag is present, the blurb is non-empty, at most 2000 characters) are not preconditions, because the core handles every input.
- The classifier client (llm_classifier.py) is left out: the network call, JSON parsing and schema validation. It is the `classify` parameter. Its schema promise (category in the leaves or the marker) is not assumed, because the core re-checks membership.
- The mocked `llm_fallback` (mapper.py:38-49) is left out: `map_story` never calls it.
- The module-level client instance and the unused `unittest` import are left out (mapper.py:1-5): the classifier is passed in instead.
- Text handling covers ASCII only. Lower-casing maps A-Z and leaves every other character unchanged. Word splitting treats space, tab, line feed, vertical tab, form feed, carriage return and 0x1C-0x1F as separators. Unicode case mapping and non-ASCII whitespace are not modelled.
- Confidence is an exact `real`, not an IEEE double: `min(1.0, score/6)` and `0.6` are exact rationals here.
- BestLeaf: which of several tied leaves is chosen is left open, because the source's choice depends on the hash order of strings.
- MapStory: its contract does not claim that two calls give the same result, for the same reason: the tie-break is left open.
- Concrete end-to-end runs on particular blurbs (a full score computation for one story) are not stated. The guard case is covered in general by `HintAnywhereIsOutOfDomain`.
