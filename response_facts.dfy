/** Fingerprints of the response texts, used to show that the two catalogs share no text. */
module Fingerprints {
  import opened Responses

  /** A short fingerprint of a response text: its length and its second and eighth
      characters from the end. */
  function Signature(x: string): (int, char, char)
    requires |x| >= 8
  {
    (|x|, x[|x| - 2], x[|x| - 8])
  }

  /** Every response of category `c` has a fingerprint in `sigs`. */
  predicate SignedBy(c: Category, sigs: set<(int, char, char)>) {
    forall j :: 0 <= j < |c.responses| ==> |c.responses[j]| >= 8 && Signature(c.responses[j]) in sigs
  }

  const FeelingSignatures: set<(int, char, char)> := {
      (97, 'r', 'f'), (97, 'w', 'g'), (102, 's', 'u'), (104, 'e', 'e'), (108, 'm', 'g'), (112, 'u', ' '),
      (116, 'e', ' '), (116, 't', 'r'), (116, 'y', 'u'), (117, 'e', 's'), (118, 'g', 'f'), (118, 'y', ' '),
      (119, 's', 'i'), (120, 'y', 'e'), (120, 'y', 'q'), (123, 's', 'e'), (123, 't', 'p'), (123, 'y', ' '),
      (124, 'e', 'a'), (127, 'n', 't'), (127, 'o', 'w'), (129, 'g', 's'), (130, 'g', 'r'), (130, 'w', 'g'),
      (131, 'e', 'p'), (132, 'y', ' '), (133, 't', ' '), (134, 't', 'r'), (136, 'f', 'o'), (141, 'e', 'n'),
      (145, 'e', ' '), (161, 'e', 'e'), (173, 'y', 'y')
  }

  const GoalSignatures: set<(int, char, char)> := {
      (112, 'e', 'a'), (112, 'o', ' '), (116, 'y', 'n'), (119, 'k', 'i'), (119, 'y', 'r'), (122, 'e', 'e'),
      (122, 'e', 'r'), (123, 'n', ' '), (125, 'e', 'e'), (125, 's', 'r'), (125, 'y', 'g'), (126, 'r', 'i'),
      (128, 's', ' '), (129, 'g', 'l'), (129, 'w', 'g'), (130, 'f', 'r'), (132, 'e', 'e'), (133, 'm', 'f'),
      (133, 't', 'e'), (133, 'y', 's'), (135, 'y', ' '), (136, 'e', 'o'), (138, 'k', '\''), (143, 's', 's'),
      (145, 'g', 'r'), (150, 'd', 'e'), (151, 's', 'e'), (154, 'e', 'n'), (154, 'e', 'p'), (154, 'l', 'n'),
      (154, 'y', 'j'), (166, 's', 'e'), (171, 'u', 'o')
  }

  // One lemma per category keeps each proof about the long literals small.
  lemma HappySigned() ensures SignedBy(Happy, FeelingSignatures) {}
  lemma SadSigned() ensures SignedBy(Sad, FeelingSignatures) {}
  lemma AngrySigned() ensures SignedBy(Angry, FeelingSignatures) {}
  lemma AnxiousSigned() ensures SignedBy(Anxious, FeelingSignatures) {}
  lemma TiredSigned() ensures SignedBy(Tired, FeelingSignatures) {}
  lemma ConfusedSigned() ensures SignedBy(Confused, FeelingSignatures) {}
  lemma HopefulSigned() ensures SignedBy(Hopeful, FeelingSignatures) {}
  lemma GratefulSigned() ensures SignedBy(Grateful, FeelingSignatures) {}
  lemma PeacefulSigned() ensures SignedBy(Peaceful, FeelingSignatures) {}
  lemma LonelySigned() ensures SignedBy(Lonely, FeelingSignatures) {}
  lemma FeelingDefaultSigned() ensures SignedBy(FeelingDefault, FeelingSignatures) {}
  lemma HealthSigned() ensures SignedBy(Health, GoalSignatures) {}
  lemma CareerSigned() ensures SignedBy(Career, GoalSignatures) {}
  lemma LearningSigned() ensures SignedBy(Learning, GoalSignatures) {}
  lemma RelationshipsSigned() ensures SignedBy(Relationships, GoalSignatures) {}
  lemma FinancialSigned() ensures SignedBy(Financial, GoalSignatures) {}
  lemma CreativeSigned() ensures SignedBy(Creative, GoalSignatures) {}
  lemma HomeSigned() ensures SignedBy(Home, GoalSignatures) {}
  lemma MentalSigned() ensures SignedBy(Mental, GoalSignatures) {}
  lemma TravelSigned() ensures SignedBy(Travel, GoalSignatures) {}
  lemma PurposeSigned() ensures SignedBy(Purpose, GoalSignatures) {}
  lemma GoalDefaultSigned() ensures SignedBy(GoalDefault, GoalSignatures) {}

  lemma SignaturesDisjoint()
    ensures FeelingSignatures !! GoalSignatures
  {
  }

  lemma FeelingSigned()
    ensures forall i :: 0 <= i < |FeelingResponses| ==> SignedBy(FeelingResponses[i], FeelingSignatures)
  {
    HappySigned(); SadSigned(); AngrySigned(); AnxiousSigned(); TiredSigned(); ConfusedSigned(); HopefulSigned(); GratefulSigned(); PeacefulSigned(); LonelySigned(); FeelingDefaultSigned();
  }

  lemma GoalSigned()
    ensures forall i :: 0 <= i < |GoalResponses| ==> SignedBy(GoalResponses[i], GoalSignatures)
  {
    HealthSigned(); CareerSigned(); LearningSigned(); RelationshipsSigned(); FinancialSigned(); CreativeSigned(); HomeSigned(); MentalSigned(); TravelSigned(); PurposeSigned(); GoalDefaultSigned();
  }

  /** Two tables whose responses carry fingerprints from disjoint sets share no response. */
  lemma DisjointBySignatures(a: seq<Category>, b: seq<Category>, sa: set<(int, char, char)>, sb: set<(int, char, char)>)
    requires forall i :: 0 <= i < |a| ==> SignedBy(a[i], sa)
    requires forall i :: 0 <= i < |b| ==> SignedBy(b[i], sb)
    requires sa !! sb
    ensures AllResponses(a) !! AllResponses(b)
  {
    forall x | x in AllResponses(a) ensures |x| >= 8 && Signature(x) in sa {
      var i, j :| 0 <= i < |a| && 0 <= j < |a[i].responses| && x == a[i].responses[j];
    }
    forall y | y in AllResponses(b) ensures |y| >= 8 && Signature(y) in sb {
      var i, j :| 0 <= i < |b| && 0 <= j < |b[i].responses| && y == b[i].responses[j];
    }
  }

  /** A table whose responses carry fingerprints of length at least `n` only offers texts
      of at least `n` characters. */
  lemma LongBySignatures(a: seq<Category>, sa: set<(int, char, char)>, n: int)
    requires forall i :: 0 <= i < |a| ==> SignedBy(a[i], sa)
    requires forall sig :: sig in sa ==> sig.0 >= n
    ensures forall x :: x in AllResponses(a) ==> |x| >= n
  {
    forall x | x in AllResponses(a) ensures |x| >= n {
      var i, j :| 0 <= i < |a| && 0 <= j < |a[i].responses| && x == a[i].responses[j];
      assert Signature(x) in sa;
    }
  }

  lemma SignaturesLong()
    ensures forall sig :: sig in FeelingSignatures ==> sig.0 >= 97
    ensures forall sig :: sig in GoalSignatures ==> sig.0 >= 97
  {
  }

  /** Every text of either catalog has at least 97 characters. */
  lemma ResponsesAreLong(t: ResponseType)
    ensures forall x :: x in AllResponses(Table(t)) ==> |x| >= 97
  {
    SignaturesLong();
    if t == FeelingTrack {
      FeelingSigned();
      LongBySignatures(FeelingResponses, FeelingSignatures, 97);
    } else {
      GoalSigned();
      LongBySignatures(GoalResponses, GoalSignatures, 97);
    }
  }
}

module ResponsesFacts {
  import opened ChatTypes
  import Text
  import opened Responses
  import opened Fingerprints

  lemma UnhappyMatchesHappy(r: real)
    requires 0.0 <= r < 1.0
    ensures FirstMatch(FeelingResponses, "unhappy", 0) == Some((0, 0))
    ensures FindBestResponse("unhappy", FeelingTrack, r) in Happy.responses
  {
    assert Text.OccursAt("unhappy", "happy", 2);
    assert Text.Lower("unhappy") == "unhappy";
  }

  /** No keyword of `kws` occurs in `s` when each keyword holds a character (`cs[k]` for
      keyword `k`) that `s` lacks. */
  lemma NoHitFromChars(kws: seq<string>, s: string, cs: seq<char>)
    requires |cs| == |kws|
    requires forall k :: 0 <= k < |kws| ==> cs[k] in kws[k] && cs[k] !in s
    ensures forall k :: 0 <= k < |kws| ==> !Hit(kws[k], s)
  {
    forall k | 0 <= k < |kws| ensures !Hit(kws[k], s) {
      Text.MissingCharNotContained(s, kws[k], cs[k]);
    }
  }

  /** No health keyword occurs in "homework". */
  lemma HomeworkMissesHealth(s: string)
    requires s == "homework"
    ensures FirstKeyword(HealthKeywords, s, 0) == None
  {
    NoHitFromChars(HealthKeywords, s, "afxuidn");
  }

  /** The first career keyword in "homework" is the third one, "work". */
  lemma HomeworkHitsCareer(s: string)
    requires s == "homework"
    ensures FirstKeyword(CareerKeywords, s, 0) == Some(2)
  {
    NoHitFromChars(CareerKeywords[..2], s, "cj");
    assert CareerKeywords[..2] == [CareerKeywords[0], CareerKeywords[1]];
    assert Text.OccursAt(s, "work", 4);
  }

  /** "homework" reaches the career category through its third keyword, "work",
      before the home category is ever looked at. */
  lemma HomeworkFirstMatch(s: string)
    requires s == "homework"
    ensures FirstMatch(GoalResponses, s, 0) == Some((1, 2))
  {
    HomeworkMissesHealth(s);
    HomeworkHitsCareer(s);
    assert GoalResponses[0] == Health && GoalResponses[1] == Career;
  }

  lemma HomeworkLowercase(s: string)
    requires s == "homework"
    ensures Text.Lower(s) == s
  {
    Text.LowerOfLowercase(s);
  }

  /** The lookup of "homework" on the goal track answers from the career category. */
  lemma HomeworkMatchesCareer(s: string, r: real)
    requires s == "homework"
    requires 0.0 <= r < 1.0
    ensures FindBestResponse(s, GoalTrack, r) in Career.responses
  {
    HomeworkFirstMatch(s);
    HomeworkLowercase(s);
  }

  /** No text appears in both catalogs, so a feeling-track lookup never yields a goal-track
      response and the other way round. */
  lemma TracksDisjoint()
    ensures AllResponses(FeelingResponses) !! AllResponses(GoalResponses)
  {
    FeelingSigned();
    GoalSigned();
    SignaturesDisjoint();
    DisjointBySignatures(FeelingResponses, GoalResponses, FeelingSignatures, GoalSignatures);
  }

  /** The literal fallback text is never the answer: both tables have a default category,
      and the fallback is shorter than every catalog text. */
  lemma FallbackNeverReturned(input: string, t: ResponseType, r: real)
    requires 0.0 <= r < 1.0
    ensures FindBestResponse(input, t, r) != Fallback
  {
    ResponsesAreLong(t);
  }

  /** The lookup lowercases first, so the case of the input does not matter. */
  lemma LookupIgnoresCase(input: string, t: ResponseType, r: real)
    requires 0.0 <= r < 1.0
    ensures FindBestResponse(Text.Lower(input), t, r) == FindBestResponse(input, t, r)
  {
    Text.LowerIdempotent(input);
  }
}
