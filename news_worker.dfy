/** The news worker's tagging rule: each fetched article becomes one event whose
    type, subtype, tags, source and severity come from its headline and the
    headline classifier's scores. */
module NewsWorker {
  import opened Common

  /** The `source` field of an article: missing, present as JSON null, or an object. */
  datatype SourceField = Absent | Null | Given(fields: map<string, string>)

  /** A fetched article. A `title` of `None` is a missing or null title; both read as
      the empty headline. */
  datatype Article = Article(title: Option<string>, source: SourceField)

  /** A stored event (its timestamp is not modelled). The event type is a free string
      because other writers may store other types. */
  datatype Event = Event(
    eventType: string,
    subtype: string,
    tags: Option<map<string, real>>,
    source: string,
    severity: real)

  /** The substring whose presence in the lower-cased headline marks a regulatory event. */
  const RegulatoryMarker: string := "regulat"
  /** The `regulatory_threat` score above which the subtype is "regulatory". */
  const ThreatThreshold: real := 0.3

  /** Lower-casing of one character, on the ASCII letters. */
  function LowerChar(c: char): (l: char)
    ensures 'A' <= c <= 'Z' ==> l as int == c as int + 32
    ensures !('A' <= c <= 'Z') ==> l == c
  {
    if 'A' <= c <= 'Z' then (c as int + 32) as char else c
  }

  /** `s.lower()` */
  function Lower(s: string): (l: string)
    ensures |l| == |s|
    ensures forall i :: 0 <= i < |s| ==> l[i] == LowerChar(s[i])
  {
    seq(|s|, i requires 0 <= i < |s| => LowerChar(s[i]))
  }

  /** `sub` occurs in `s` starting at position `i`. */
  ghost predicate OccursAt(s: string, sub: string, i: int)
  {
    0 <= i <= |s| - |sub| && s[i..i + |sub|] == sub
  }

  /** `sub in s` for strings. */
  function Contains(s: string, sub: string): (b: bool)
    ensures b <==> exists i :: OccursAt(s, sub, i)
    decreases |s|
  {
    if |s| < |sub| then false
    else if s[..|sub|] == sub then
      assert OccursAt(s, sub, 0);
      true
    else
      var rest := Contains(s[1..], sub);
      assert rest ==> exists i :: OccursAt(s, sub, i) by {
        if rest {
          var j :| OccursAt(s[1..], sub, j);
          assert s[j + 1..j + 1 + |sub|] == s[1..][j..j + |sub|];
          assert OccursAt(s, sub, j + 1);
        }
      }
      assert (exists i :: OccursAt(s, sub, i)) ==> rest by {
        if exists i :: OccursAt(s, sub, i) {
          var i :| OccursAt(s, sub, i);
          assert i != 0;
          assert s[1..][i - 1..i - 1 + |sub|] == s[i..i + |sub|];
          assert OccursAt(s[1..], sub, i - 1);
        }
      }
      rest
  }

  /** Whether the headline is about regulation: the marker in the lower-cased headline. */
  predicate MentionsRegulation(headline: string): (m: bool)
    ensures m <==> exists i :: OccursAt(Lower(headline), RegulatoryMarker, i)
    ensures m ==> |headline| >= |RegulatoryMarker|
  {
    Contains(Lower(headline), RegulatoryMarker)
  }

  /** The score under `k` is the largest in `scores`. */
  ghost predicate IsMaxKey(scores: map<string, real>, k: string)
  {
    k in scores && forall j :: j in scores ==> scores[j] <= scores[k]
  }

  /** `max(scores.values())` for a non-empty score map. */
  function MaxScore(scores: map<string, real>): (m: real)
    requires scores != map[]
    ensures exists k :: k in scores && scores[k] == m
    ensures forall k :: k in scores ==> scores[k] <= m
  {
    assert exists m :: m in scores.Values && forall v :: v in scores.Values ==> v <= m by {
      MaxKeyExists(scores);
      var top :| IsMaxKey(scores, top);
      assert scores[top] in scores.Values;
    }
    var m :| m in scores.Values && forall v :: v in scores.Values ==> v <= m;
    assert forall k :: k in scores ==> scores[k] in scores.Values;
    m
  }

  lemma {:induction false} MaxKeyExists(scores: map<string, real>)
    requires scores != map[]
    ensures exists k :: IsMaxKey(scores, k)
  {
    var a :| a in scores;
    var rest := scores - {a};
    if rest == map[] {
      forall j | j in scores ensures scores[j] <= scores[a] {
        assert j !in rest;
      }
      assert IsMaxKey(scores, a);
    } else {
      MaxKeyExists(rest);
      var m :| IsMaxKey(rest, m);
      var top := if scores[a] <= rest[m] then m else a;
      forall j | j in scores ensures scores[j] <= scores[top] {
        if j != a {
          assert j in rest;
        }
      }
      assert IsMaxKey(scores, top);
    }
  }

  /** The stored source name: the object's `name`, or "news" when the field is missing
      or has no `name`. A null field makes `.get` fail on `None`. */
  function SourceName(source: SourceField): (r: Result<string>)
    ensures r.Err? <==> source.Null?
    ensures r.Err? ==> r.error == AttributeError
    ensures source.Absent? ==> r == Ok("news")
    ensures source.Given? && "name" in source.fields ==> r == Ok(source.fields["name"])
    ensures source.Given? && "name" !in source.fields ==> r == Ok("news")
  {
    match source
    case Absent => Ok(Get(map[], "name", "news"))
    case Null => Err(AttributeError)
    case Given(fields) => Ok(Get(fields, "name", "news"))
  }

  /** The event the worker stores for one article, given the headline classifier;
      it raises exactly when the article's source is null. */
  function TagArticle(article: Article, classify: string -> map<string, real>): (r: Result<Event>)
    ensures r.Err? <==> article.source.Null?
    ensures r.Err? ==> r.error == AttributeError
    ensures r.Ok? ==> var e := r.value;
      var headline := article.title.GetOr("");
      var scores := classify(headline);
      (e.eventType == "regulatory" <==> MentionsRegulation(headline)) &&
      (e.eventType == "news" <==> !MentionsRegulation(headline)) &&
      (e.subtype == "regulatory" <==> Get(scores, "regulatory_threat", 0.0) > ThreatThreshold) &&
      (e.subtype == "macro" <==> Get(scores, "regulatory_threat", 0.0) <= ThreatThreshold) &&
      e.tags == Some(scores) &&
      (scores == map[] ==> e.severity == 0.0) &&
      (scores != map[] ==> (exists k :: k in scores && scores[k] == e.severity) &&
                           (forall k :: k in scores ==> scores[k] <= e.severity)) &&
      Ok(e.source) == SourceName(article.source)
  {
    var headline := article.title.GetOr("");
    match SourceName(article.source)
    case Err(fault) => Err(fault)
    case Ok(source) =>
      var scores := classify(headline);
      var subtype := if Get(scores, "regulatory_threat", 0.0) > ThreatThreshold then "regulatory" else "macro";
      Ok(Event(
        if MentionsRegulation(headline) then "regulatory" else "news",
        subtype,
        Some(scores),
        source,
        if scores != map[] then MaxScore(scores) else 0.0))
  }

  /** `run_once` over the fetched articles: the events added to the session, one per
      article in order. The batch is one transaction, so an article with a null source
      raises and nothing is stored. */
  method RunOnce(articles: seq<Article>, classify: string -> map<string, real>) returns (r: Result<seq<Event>>)
    ensures r.Err? <==> exists i :: 0 <= i < |articles| && articles[i].source.Null?
    ensures r.Err? ==> r.error == AttributeError
    ensures r.Ok? ==> |r.value| == |articles|
    ensures r.Ok? ==> forall i :: 0 <= i < |articles| ==> TagArticle(articles[i], classify) == Ok(r.value[i])
  {
    var added := [];
    for i := 0 to |articles|
      invariant |added| == i
      invariant forall k :: 0 <= k < i ==> TagArticle(articles[k], classify) == Ok(added[k])
    {
      var tagged := TagArticle(articles[i], classify);
      if tagged.Err? {
        return Err(tagged.error);
      }
      added := added + [tagged.value];
    }
    return Ok(added);
  }

  /** An article without a title gets the empty headline, which never reads as regulatory. */
  lemma UntitledArticleIsNews(article: Article, classify: string -> map<string, real>)
    requires article.title.None?
    ensures TagArticle(article, classify).Ok? ==> TagArticle(article, classify).value.eventType == "news"
  {
  }

  /** The type test ignores ASCII case: a headline and its lower-cased form get the same type. */
  lemma TypeIgnoresCase(headline: string)
    ensures MentionsRegulation(headline) <==> MentionsRegulation(Lower(headline))
  {
    assert Lower(Lower(headline)) == Lower(headline) by {
      forall i | 0 <= i < |headline| ensures Lower(Lower(headline))[i] == Lower(headline)[i] {
      }
    }
  }

  /** Any headline that contains the marker in any letter case is regulatory. */
  lemma MarkerMakesRegulatory(prefix: string, suffix: string, marker: string)
    requires Lower(marker) == RegulatoryMarker
    ensures MentionsRegulation(prefix + marker + suffix)
  {
    var h := prefix + marker + suffix;
    var i := |prefix|;
    assert Lower(h)[i..i + |marker|] == Lower(marker) by {
      forall k | 0 <= k < |marker| ensures Lower(h)[i..i + |marker|][k] == Lower(marker)[k] {
        assert h[i + k] == marker[k];
      }
    }
    assert OccursAt(Lower(h), RegulatoryMarker, i);
  }

  /** Type and subtype are decided independently: a regulatory headline can get the
      subtype "macro", and a non-regulatory one the subtype "regulatory". */
  lemma TypeAndSubtypeIndependent(headline: string, scores: map<string, real>)
    requires MentionsRegulation(headline) && Get(scores, "regulatory_threat", 0.0) <= ThreatThreshold
    ensures var r := TagArticle(Article(Some(headline), Absent), _ => scores);
      r.Ok? && r.value.eventType == "regulatory" && r.value.subtype == "macro"
  {
  }

  /** The classifier's neutral answer (used without an inference token): subtype
      "macro" and severity 1. */
  lemma NeutralClassification(article: Article)
    ensures var r := TagArticle(article, _ => map["regulatory_threat" := 0.0, "regulatory_support" := 0.0, "neutral_unclear" := 1.0]);
      r.Ok? ==> r.value.subtype == "macro" && r.value.severity == 1.0
  {
    var scores := map["regulatory_threat" := 0.0, "regulatory_support" := 0.0, "neutral_unclear" := 1.0];
    var r := TagArticle(article, _ => scores);
    if r.Ok? {
      assert scores["neutral_unclear"] <= r.value.severity;
      var k :| k in scores && scores[k] == r.value.severity;
    }
  }

  /** Scores in [0, 1] give a severity in [0, 1]. */
  lemma SeverityBounds(article: Article, classify: string -> map<string, real>)
    requires forall h, k :: k in classify(h) ==> 0.0 <= classify(h)[k] <= 1.0
    ensures var r := TagArticle(article, classify);
      r.Ok? ==> 0.0 <= r.value.severity <= 1.0
  {
    var r := TagArticle(article, classify);
    var scores := classify(article.title.GetOr(""));
    if r.Ok? && scores != map[] {
      var k :| k in scores && scores[k] == r.value.severity;
    }
  }
}
