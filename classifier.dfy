/** The keyword classification service: `classify_query` turns a text into a
    duplicate-free, non-empty list of tags and a priority by substring tests
    on the lower-cased text, and the `/classify` route refuses an empty text
    before classifying. */
module Classifier {
  import opened Wrappers
  import opened Text

  const ComplaintWords := ["complaint", "problem", "broken", "error", "issue", "unhappy", "not working", "failed"]
  const QuestionWords := ["question", "how to", "where is", "can i get", "what is"]
  const FeatureWords := ["feature", "suggest", "request", "wish", "idea", "should add"]
  const AccountWords := ["login", "password", "account", "billing", "charge", "invoice"]
  const UrgentWords := ["urgent", "immediate", "security issue", "cannot login"]

  const ComplaintTag := "Complaint"
  const QuestionTag := "Question"
  const FeatureTag := "Feature Request"
  const AccountTag := "Account/Billing"
  const GeneralTag := "General Inquiry"

  const KnownTags := {ComplaintTag, QuestionTag, FeatureTag, AccountTag, GeneralTag}

  /** Python's `str.lower` on a character, restricted to ASCII letters. */
  function LowerChar(c: char): char {
    if 'A' <= c <= 'Z' then (c as int + 32) as char else c
  }

  /** Python's `str.lower`, restricted to ASCII letters. */
  function Lower(s: string): (r: string)
    ensures |r| == |s|
    ensures forall i :: 0 <= i < |s| ==> r[i] == LowerChar(s[i])
  {
    if s == [] then [] else [LowerChar(s[0])] + Lower(s[1..])
  }

  /** Lower-casing twice is lower-casing once. */
  lemma LowerIdempotent(s: string)
    ensures Lower(Lower(s)) == Lower(s)
  {
    assert forall i :: 0 <= i < |s| ==> Lower(Lower(s))[i] == Lower(s)[i];
  }

  predicate NoDuplicates(s: seq<string>) {
    forall i, j :: 0 <= i < j < |s| ==> s[i] != s[j]
  }

  /** `list(set(tags))`: the same elements, each once. The order Python's
      set iteration yields is not modelled; this keeps first occurrences. */
  function Dedup(s: seq<string>): (r: seq<string>)
    ensures NoDuplicates(r)
    ensures forall x :: x in r <==> x in s
  {
    if s == [] then []
    else
      var rest := Dedup(s[1..]);
      if s[0] in rest then rest else [s[0]] + rest
  }

  /** Some keyword group matched, so the text gets a topical tag. */
  predicate MatchesAnyGroup(lower: string) {
    || ContainsAny(lower, ComplaintWords)
    || ContainsAny(lower, QuestionWords)
    || ContainsAny(lower, FeatureWords)
    || ContainsAny(lower, AccountWords)
  }

  /** The priority `classify_query` actually returns: Urgent on an urgency
      keyword, else High on "error" or "broken", else Low. */
  function PriorityAsWritten(lower: string): string {
    if ContainsAny(lower, UrgentWords) then "Urgent"
    else if Contains(lower, "error") || Contains(lower, "broken") then "High"
    else "Low"
  }

  /** What `classify_query` promises about its result for the lower-cased
      text `lower`: each topical tag present exactly when one of its keywords
      occurs, "General Inquiry" exactly when none does, nothing else, no
      duplicates, and the priority above. */
  predicate IsClassificationOf(lower: string, tags: seq<string>, priority: string) {
    && (forall t :: t in tags ==> t in KnownTags)
    && NoDuplicates(tags)
    && (ComplaintTag in tags <==> ContainsAny(lower, ComplaintWords))
    && (QuestionTag in tags <==> ContainsAny(lower, QuestionWords))
    && (FeatureTag in tags <==> ContainsAny(lower, FeatureWords))
    && (AccountTag in tags <==> ContainsAny(lower, AccountWords))
    && (GeneralTag in tags <==> !MatchesAnyGroup(lower))
    && priority == PriorityAsWritten(lower)
  }

  /** The four `if re.search(...)` appends of `classify_query`: one tag per
      matching keyword group. */
  method TopicalTags(lower: string) returns (tags: seq<string>)
    ensures forall t :: t in tags ==> t in KnownTags - {GeneralTag}
    ensures NoDuplicates(tags)
    ensures ComplaintTag in tags <==> ContainsAny(lower, ComplaintWords)
    ensures QuestionTag in tags <==> ContainsAny(lower, QuestionWords)
    ensures FeatureTag in tags <==> ContainsAny(lower, FeatureWords)
    ensures AccountTag in tags <==> ContainsAny(lower, AccountWords)
    ensures tags == [] <==> !MatchesAnyGroup(lower)
  {
    tags := [];
    if ContainsAny(lower, ComplaintWords) {
      tags := tags + [ComplaintTag];
    }
    if ContainsAny(lower, QuestionWords) {
      tags := tags + [QuestionTag];
    }
    if ContainsAny(lower, FeatureWords) {
      tags := tags + [FeatureTag];
    }
    if ContainsAny(lower, AccountWords) {
      tags := tags + [AccountTag];
    }
  }

  /** `classify_query(text)`: tags grow by successive appends, the priority
      is chosen by an if/elif chain whose second and third tests compare
      lower-case names with the capitalised tags, the tags are de-duplicated,
      and "General Inquiry" is appended when none was found. */
  method ClassifyQuery(text: string) returns (tags: seq<string>, priority: string)
    ensures IsClassificationOf(Lower(text), tags, priority)
  {
    var lower := Lower(text);
    tags := TopicalTags(lower);
    priority := "Low";
    ghost var found := tags;
    LowerCaseNamesAbsent(tags);
    var urgent := Contains(lower, "urgent") || Contains(lower, "immediate")
                  || Contains(lower, "security issue") || Contains(lower, "cannot login");
    UrgentIsAlternation(lower);
    if urgent {
      priority := "Urgent";
    } else if "complaint" in tags || Contains(lower, "error") || Contains(lower, "broken") {
      priority := "High";
    } else if "feature request" in tags || "question" in tags {
      priority := "Medium";
    } else {
      priority := "Low";
    }
    tags := Dedup(tags);
    if tags == [] {
      tags := tags + [GeneralTag];
    }
    TagsAfterDedup(found, tags);
  }

  /** The final tag list has the elements of the topical tags found, or
      "General Inquiry" alone when there were none. */
  lemma TagsAfterDedup(found: seq<string>, tags: seq<string>)
    requires forall t :: t in found ==> t in KnownTags - {GeneralTag}
    requires tags == (if Dedup(found) == [] then [GeneralTag] else Dedup(found))
    ensures forall t :: t in tags ==> t in KnownTags
    ensures NoDuplicates(tags)
    ensures forall t :: t != GeneralTag ==> (t in tags <==> t in found)
    ensures GeneralTag in tags <==> found == []
  {
  }

  /** The lower-case names the if/elif chain looks for are never among the
      capitalised tags. */
  lemma LowerCaseNamesAbsent(tags: seq<string>)
    requires forall t :: t in tags ==> t in KnownTags
    ensures "complaint" !in tags && "feature request" !in tags && "question" !in tags
  {
    forall t | t in tags ensures t[0] != 'c' && t[0] != 'f' && t[0] != 'q' {
      assert t in KnownTags;
    }
  }

  /** The four `in` tests of the urgency branch are the alternation over
      `UrgentWords`. */
  lemma UrgentIsAlternation(lower: string)
    ensures ContainsAny(lower, UrgentWords) <==>
              Contains(lower, "urgent") || Contains(lower, "immediate")
              || Contains(lower, "security issue") || Contains(lower, "cannot login")
  {
  }

  /** The reply of the `/classify` route. */
  datatype ClassifyResponse = NoText | Classified(tags: seq<string>, priority: string)

  /** The `/classify` route: a missing or empty `text` is refused (status
      400) without classifying; otherwise the result of `classify_query`. */
  method Classify(text: Option<string>) returns (resp: ClassifyResponse)
    ensures resp.NoText? <==> !Truthy(text)
    ensures resp.Classified? ==> IsClassificationOf(Lower(text.value), resp.tags, resp.priority)
  {
    if !Truthy(text) {
      return NoText;
    }
    var tags, priority := ClassifyQuery(text.value);
    resp := Classified(tags, priority);
  }

  /** The tag list is never empty, and "General Inquiry" comes alone. */
  lemma GeneralInquiryAlone(lower: string, tags: seq<string>, priority: string)
    requires IsClassificationOf(lower, tags, priority)
    ensures |tags| >= 1
    ensures GeneralTag in tags ==> tags == [GeneralTag]
    ensures |tags| <= 4
  {
    if GeneralTag in tags {
      forall i | 0 <= i < |tags| ensures tags[i] == GeneralTag {
        assert tags[i] in KnownTags;
      }
      DistinctWithin(tags, {GeneralTag});
    } else {
      assert MatchesAnyGroup(lower);
      if ContainsAny(lower, ComplaintWords) { assert ComplaintTag in tags; }
      else if ContainsAny(lower, QuestionWords) { assert QuestionTag in tags; }
      else if ContainsAny(lower, FeatureWords) { assert FeatureTag in tags; }
      else { assert AccountTag in tags; }
      DistinctWithin(tags, KnownTags - {GeneralTag});
    }
  }

  /** A duplicate-free list drawn from a set is no longer than the set. */
  lemma {:induction false} DistinctWithin(s: seq<string>, universe: set<string>)
    requires NoDuplicates(s)
    requires forall x :: x in s ==> x in universe
    ensures |s| <= |universe|
    decreases |s|
  {
    if s != [] {
      assert forall x :: x in s[1..] ==> x in universe - {s[0]} by {
        forall x | x in s[1..] ensures x in universe - {s[0]} {
          var k :| 1 <= k < |s| && s[k] == x;
          assert s[0] != s[k];
        }
      }
      DistinctWithin(s[1..], universe - {s[0]});
    }
  }

  /** The priority is decided on the lower-cased text alone and is never
      Medium: its three values are exactly characterised. */
  lemma PriorityCases(lower: string)
    ensures PriorityAsWritten(lower) == "Urgent" <==> ContainsAny(lower, UrgentWords)
    ensures PriorityAsWritten(lower) == "High" <==>
              !ContainsAny(lower, UrgentWords) && (Contains(lower, "error") || Contains(lower, "broken"))
    ensures PriorityAsWritten(lower) == "Low" <==>
              !ContainsAny(lower, UrgentWords) && !Contains(lower, "error") && !Contains(lower, "broken")
    ensures PriorityAsWritten(lower) != "Medium"
  {
  }

  /** The priority the if/elif chain evidently meant: its second and third
      tests look for the Complaint, Feature Request and Question tags. */
  function IntendedPriority(lower: string): string {
    if ContainsAny(lower, UrgentWords) then "Urgent"
    else if ContainsAny(lower, ComplaintWords) || Contains(lower, "error") || Contains(lower, "broken") then "High"
    else if ContainsAny(lower, FeatureWords) || ContainsAny(lower, QuestionWords) then "Medium"
    else "Low"
  }

  /** The intended rule reaches Medium exactly for questions and feature
      requests that are neither urgent nor complaints, and agrees with the
      code whenever the text is urgent or mentions "error" or "broken". */
  lemma IntendedPriorityCases(lower: string)
    ensures IntendedPriority(lower) == "Medium" <==>
              && !ContainsAny(lower, UrgentWords) && !ContainsAny(lower, ComplaintWords)
              && (ContainsAny(lower, FeatureWords) || ContainsAny(lower, QuestionWords))
    ensures ContainsAny(lower, UrgentWords) || Contains(lower, "error") || Contains(lower, "broken") ==>
              IntendedPriority(lower) == PriorityAsWritten(lower)
  {
    if Contains(lower, "error") {
      assert "error" in ComplaintWords;
    }
    if Contains(lower, "broken") {
      assert "broken" in ComplaintWords;
    }
  }

  /** A plain question: the code answers Low where Medium was intended. */
  lemma QuestionLosesMedium()
    ensures PriorityAsWritten("how to") == "Low"
    ensures IntendedPriority("how to") == "Medium"
  {
    var t := "how to";
    assert Contains(t, "how to");
    assert ContainsAny(t, QuestionWords);
    forall p | p in UrgentWords + ComplaintWords ensures !Contains(t, p) {
      if |p| > |t| {
        LongPatternAbsent(t, p);
      } else if p == "error" {
        MissingCharAbsent(t, p, 1);
      } else {
        assert p in ["issue", "failed", "broken", "urgent"];
        MissingCharAbsent(t, p, 0);
      }
    }
    assert "error" in ComplaintWords && "broken" in ComplaintWords;
  }
}
