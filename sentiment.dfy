/** The sentiment service: what `analyzeDaySentiment` and
    `analyzePointVenteSentiment` do around the language-model call. The call
    itself and `JSON.parse` are parameters that may throw; the prompt is
    modelled by the data it carries, not by its wording. */
module Sentiment {
  import opened Common

  /** A call that returns a value or throws with a message. */
  datatype Attempt<T> = Done(value: T) | Threw(message: string)

  const NEANT: string := "neant"

  /** A comment worth sending: truthy, not `neant` in any letter case, and
      not blank. */
  predicate IsValidComment(c: string)
  {
    c != "" && ToLower(c) != NEANT && !AllWhitespace(c)
  }

  /** The test as the filter writes it, `c.trim() !== ''` for the last
      part, is the same. */
  lemma IsValidCommentAsWritten(c: string)
    ensures IsValidComment(c) <==> c != "" && ToLower(c) != NEANT && Trim(c) != ""
  {
    TrimEmptyIff(c);
  }

  /** `xs.filter(keep)`: the kept elements, in order. */
  function Filter(xs: seq<string>, keep: string -> bool): (r: seq<string>)
    ensures |r| <= |xs|
    ensures forall k :: 0 <= k < |r| ==> keep(r[k])
  {
    if xs == [] then []
    else (if keep(xs[0]) then [xs[0]] else []) + Filter(xs[1..], keep)
  }

  /** An element is in the result exactly when it is in the input and
      kept. */
  lemma {:induction false} FilterMembers(xs: seq<string>, keep: string -> bool, x: string)
    ensures x in Filter(xs, keep) <==> x in xs && keep(x)
  {
    if xs != [] {
      FilterMembers(xs[1..], keep, x);
      assert xs == [xs[0]] + xs[1..];
    }
  }

  /** A list whose elements are all kept passes whole. */
  lemma {:induction false} FilterKeepsAll(xs: seq<string>, keep: string -> bool)
    requires forall k :: 0 <= k < |xs| ==> keep(xs[k])
    ensures Filter(xs, keep) == xs
  {
    if xs != [] {
      FilterKeepsAll(xs[1..], keep);
      assert [xs[0]] + xs[1..] == xs;
    }
  }

  /** Filtering works element by element. */
  lemma {:induction false} FilterAppend(a: seq<string>, b: seq<string>, keep: string -> bool)
    ensures Filter(a + b, keep) == Filter(a, keep) + Filter(b, keep)
  {
    if a == [] {
      assert a + b == b;
    } else {
      var head := if keep(a[0]) then [a[0]] else [];
      assert Filter(a + b, keep) == head + Filter(a[1..] + b, keep) by {
        assert (a + b)[0] == a[0] && (a + b)[1..] == a[1..] + b;
      }
      assert Filter(a, keep) == head + Filter(a[1..], keep);
      FilterAppend(a[1..], b, keep);
    }
  }

  /** `comments.filter(...)` with the rule above. */
  function ValidComments(cs: seq<string>): (r: seq<string>)
    ensures |r| <= |cs|
    ensures forall k :: 0 <= k < |r| ==> IsValidComment(r[k])
    ensures forall c :: c in r <==> c in cs && IsValidComment(c)
  {
    forall c ensures c in Filter(cs, IsValidComment) <==> c in cs && IsValidComment(c) {
      FilterMembers(cs, IsValidComment, c);
    }
    Filter(cs, IsValidComment)
  }

  /** A text with a visible first character is a valid comment. */
  lemma VisibleIsValid(c: string)
    requires c != [] && !IsJsWhitespace(c[0]) && c[0] != 'n' && c[0] != 'N'
    ensures IsValidComment(c)
  {
    assert ToLower(c)[0] != NEANT[0];
  }

  /** `${i}. ${c}`. */
  function Line(i: nat, c: string): string
  {
    Decimal(i) + ". " + c
  }

  /** The comments numbered from `from` on, in input order. */
  function Numbered(cs: seq<string>, from: nat): (r: seq<string>)
    ensures |r| == |cs|
    ensures forall k :: 0 <= k < |cs| ==> r[k] == Line(from + k, cs[k])
  {
    if cs == [] then [] else [Line(from, cs[0])] + Numbered(cs[1..], from + 1)
  }

  /** The comment list of the prompt: lines `1. c`, `2. c`, ... joined by
      newlines. */
  function CommentsText(valid: seq<string>): string
  {
    Join(Numbered(valid, 1), '\n')
  }

  /** When no comment spans several lines, the prompt list has one line per
      comment, numbered from 1 in input order. */
  lemma CommentsTextLines(valid: seq<string>)
    requires valid != [] && forall k :: 0 <= k < |valid| ==> '\n' !in valid[k]
    ensures Split(CommentsText(valid), '\n') == Numbered(valid, 1)
    ensures forall k :: 0 <= k < |valid| ==> Split(CommentsText(valid), '\n')[k] == Line(k + 1, valid[k])
  {
    var lines := Numbered(valid, 1);
    forall k | 0 <= k < |lines| ensures '\n' !in lines[k] {
      assert lines[k] == Decimal(k + 1) + ". " + valid[k];
      assert '\n' !in Decimal(k + 1);
    }
    SplitJoin(lines, '\n');
  }

  const CLIENT_MARK: string := "Commentaires clients"
  const CLIENT_SUFFIX: string := " - Commentaires clients"

  /** Client mode: the name contains `Commentaires clients`. */
  predicate IsClientMode(name: string)
  {
    Contains(name, CLIENT_MARK)
  }

  /** The first occurrence of `pat` in `s` at or after `from`. */
  function Search(s: string, pat: string, from: nat): (r: Option<nat>)
    requires from <= |s| + 1
    ensures r.Some? ==> from <= r.value && OccursAt(s, pat, r.value)
    ensures r.Some? ==> forall j :: from <= j < r.value ==> !OccursAt(s, pat, j)
    ensures r.None? ==> forall j :: from <= j ==> !OccursAt(s, pat, j)
    decreases |s| + 1 - from
  {
    if from + |pat| > |s| then None
    else if s[from..from + |pat|] == pat then Some(from)
    else Search(s, pat, from + 1)
  }

  /** `s.replace(pat, rep)` with a string pattern: the first occurrence only. */
  function ReplaceFirst(s: string, pat: string, rep: string): (r: string)
    ensures !Contains(s, pat) ==> r == s
  {
    match Search(s, pat, 0)
    case None => s
    case Some(i) => s[..i] + rep + s[i + |pat|..]
  }

  /** The outlet name shown in a client prompt. */
  function DisplayName(name: string): string
  {
    ReplaceFirst(name, CLIENT_SUFFIX, "")
  }

  /** The external route names the client analysis `<outlet> - Commentaires
      clients`: that name is in client mode, and the name shown is the
      outlet's own, provided the outlet's name does not itself carry the
      suffix. */
  lemma ClientNameRoundTrip(p: string)
    requires !Contains(p, CLIENT_SUFFIX)
    ensures IsClientMode(p + CLIENT_SUFFIX)
    ensures DisplayName(p + CLIENT_SUFFIX) == p
  {
    var s := p + CLIENT_SUFFIX;
    assert OccursAt(s, CLIENT_SUFFIX, |p|) by {
      assert s[|p|..|p| + |CLIENT_SUFFIX|] == CLIENT_SUFFIX;
    }
    assert OccursAt(s, CLIENT_MARK, |p| + 3) by {
      assert CLIENT_SUFFIX[3..] == CLIENT_MARK;
      assert s[|p| + 3..|p| + 3 + |CLIENT_MARK|] == s[|p|..|p| + |CLIENT_SUFFIX|][3..];
    }
    forall j | 0 <= j < |p| ensures !OccursAt(s, CLIENT_SUFFIX, j) {
      SuffixNotBefore(p, j);
    }
    assert Search(s, CLIENT_SUFFIX, 0) == Some(|p|);
    assert s[..|p|] == p;
  }

  /** In `p` followed by the suffix, the suffix does not start inside `p`
      when `p` does not carry it. */
  lemma SuffixNotBefore(p: string, j: nat)
    requires !Contains(p, CLIENT_SUFFIX) && j < |p|
    ensures !OccursAt(p + CLIENT_SUFFIX, CLIENT_SUFFIX, j)
  {
    var s := p + CLIENT_SUFFIX;
    if OccursAt(s, CLIENT_SUFFIX, j) {
      if j + |CLIENT_SUFFIX| <= |p| {
        assert s[j..j + |CLIENT_SUFFIX|] == p[j..j + |CLIENT_SUFFIX|];
        assert OccursAt(p, CLIENT_SUFFIX, j);
        assert false;
      } else {
        var t := |p| - j;
        assert 1 <= t < |CLIENT_SUFFIX|;
        assert s[|p|] == CLIENT_SUFFIX[0] == CLIENT_SUFFIX[t];
        assert s[|p| + 1] == CLIENT_SUFFIX[1];
        assert t + 1 < |CLIENT_SUFFIX| ==> s[|p| + 1] == CLIENT_SUFFIX[t + 1];
        NoSelfOverlap(t);
        assert false;
      }
    }
  }

  /** The suffix cannot overlap a shifted copy of itself: no space in it is
      followed by a dash, except the first. */
  lemma NoSelfOverlap(t: int)
    requires 1 <= t < |CLIENT_SUFFIX|
    ensures CLIENT_SUFFIX[t] != ' ' || (t + 1 < |CLIENT_SUFFIX| && CLIENT_SUFFIX[t + 1] != '-')
  {
  }

  const FENCE: string := "```"

  /** Three backticks at the start of `s`. */
  predicate FenceAt(s: string)
  {
    |s| >= 3 && s[0] == '`' && s[1] == '`' && s[2] == '`'
  }

  /** `content.startsWith('```')` is the same test. */
  lemma FenceAtIsStartsWith(s: string)
    ensures FenceAt(s) <==> StartsWith(s, FENCE)
  {
    if |s| >= 3 { assert s[..3][0] == s[0] && s[..3][1] == s[1] && s[..3][2] == s[2]; }
  }

  /** "```jso" at the start of `s`. */
  predicate OpenerAt(s: string)
  {
    FenceAt(s) && |s| >= 6 && s[3] == 'j' && s[4] == 's' && s[5] == 'o'
  }

  /** `.replace(/```json?\n?/g, '')`: every "```jso", with an optional
      `n` and then an optional newline, removed left to right. */
  function StripOpeners(s: string): (r: string)
    ensures |r| <= |s|
  {
    if s == [] then []
    else if OpenerAt(s) then
      var k := 6 + (if |s| > 6 && s[6] == 'n' then 1 else 0);
      var k2 := k + (if |s| > k && s[k] == '\n' then 1 else 0);
      StripOpeners(s[k2..])
    else [s[0]] + StripOpeners(s[1..])
  }

  /** `.replace(/```\n?/g, '')`: every triple backtick, with an optional
      newline, removed left to right. */
  function StripFences(s: string): (r: string)
    ensures |r| <= |s|
  {
    if s == [] then []
    else if FenceAt(s) then
      var k := 3 + (if |s| > 3 && s[3] == '\n' then 1 else 0);
      StripFences(s[k..])
    else [s[0]] + StripFences(s[1..])
  }

  /** The text handed to `JSON.parse`: the trimmed reply, unwrapped from a
      Markdown code fence only when it starts with one. */
  function ExtractJson(content: string): (r: string)
    ensures !StartsWith(content, FENCE) ==> r == content
  {
    FenceAtIsStartsWith(content);
    if FenceAt(content) then Trim(StripFences(StripOpeners(content))) else content
  }

  /** Backtick-free text in front passes through the opener removal. */
  lemma {:induction false} OpenersSkipPlainPrefix(a: string, t: string)
    requires '`' !in a
    ensures StripOpeners(a + t) == a + StripOpeners(t)
  {
    if a == [] {
      assert a + t == t;
    } else {
      var s := a + t;
      assert a == [a[0]] + a[1..];
      assert s[0] == a[0] != '`' && s[1..] == a[1..] + t by { assert a[0] in a; }
      assert StripOpeners(s) == [a[0]] + StripOpeners(a[1..] + t);
      assert StripOpeners(a[1..] + t) == a[1..] + StripOpeners(t) by {
        assert '`' !in a[1..];
        OpenersSkipPlainPrefix(a[1..], t);
      }
    }
  }

  /** Backtick-free text in front passes through the fence removal. */
  lemma {:induction false} FencesSkipPlainPrefix(a: string, t: string)
    requires '`' !in a
    ensures StripFences(a + t) == a + StripFences(t)
  {
    if a == [] {
      assert a + t == t;
    } else {
      var s := a + t;
      assert a == [a[0]] + a[1..];
      assert s[0] == a[0] != '`' && s[1..] == a[1..] + t by { assert a[0] in a; }
      assert StripFences(s) == [a[0]] + StripFences(a[1..] + t);
      assert StripFences(a[1..] + t) == a[1..] + StripFences(t) by {
        assert '`' !in a[1..];
        FencesSkipPlainPrefix(a[1..], t);
      }
    }
  }

  /** The closing fence alone: the opener removal keeps it, the fence
      removal drops it. */
  lemma ClosingFence()
    ensures StripOpeners(FENCE) == FENCE
    ensures StripFences(FENCE) == ""
  {
    assert FENCE[1..] == "``" && "``"[1..] == "`" && "`"[1..] == "";
    assert FENCE[3..] == "";
  }

  /** The removals on a JSON body wrapped in a `json` fence. */
  lemma StripJsonFence(body: string)
    requires '`' !in body
    ensures StripFences(StripOpeners(FENCE + "json\n" + body + "\n" + FENCE)) == body + "\n"
  {
    var tail := body + "\n";
    var a := FENCE + "json\n" + body + "\n" + FENCE;
    assert a == FENCE + "json\n" + (tail + FENCE);
    assert OpenerAt(a) && a[6] == 'n' && a[7] == '\n';
    assert a[8..] == tail + FENCE;
    OpenersSkipPlainPrefix(tail, FENCE);
    ClosingFence();
    assert StripOpeners(a) == tail + FENCE;
    FencesSkipPlainPrefix(tail, FENCE);
    assert tail + "" == tail;
  }

  /** A JSON body wrapped in a `json` fence comes out as the trimmed body. */
  lemma JsonFencedReply(body: string)
    requires '`' !in body
    ensures ExtractJson(FENCE + "json\n" + body + "\n" + FENCE) == Trim(body + "\n")
  {
    StripJsonFence(body);
    var a := FENCE + "json\n" + body + "\n" + FENCE;
    assert FenceAt(a);
  }

  /** A fence followed by a newline is no opener: the opener removal
      keeps it. */
  lemma BareFenceKeptByOpeners(rest: string)
    requires rest != [] && rest[0] == '\n'
    ensures StripOpeners(FENCE + rest) == FENCE + StripOpeners(rest)
  {
    var b := FENCE + rest;
    assert b[1..] == "``" + rest && b[2..] == "`" + rest && b[3..] == rest;
    assert !OpenerAt(b) && !FenceAt(b[1..]) && !FenceAt(b[2..]);
    assert ("`" + rest)[1..] == rest;
    assert StripOpeners(b[2..]) == "`" + StripOpeners(rest);
    assert ("``" + rest)[1..] == "`" + rest;
    assert StripOpeners(b[1..]) == "``" + StripOpeners(rest);
  }

  /** The removals on a JSON body wrapped in a bare fence. */
  lemma StripBareFence(body: string)
    requires '`' !in body
    ensures StripFences(StripOpeners(FENCE + "\n" + body + "\n" + FENCE)) == body + "\n"
  {
    var tail := body + "\n";
    var rest := "\n" + tail + FENCE;
    var b := FENCE + rest;
    assert b == FENCE + "\n" + body + "\n" + FENCE;
    BareFenceKeptByOpeners(rest);
    OpenersSkipPlainPrefix("\n" + tail, FENCE);
    assert FenceAt(b) && b[3] == '\n' && b[4..] == tail + FENCE;
    FencesSkipPlainPrefix(tail, FENCE);
    ClosingFence();
    assert tail + "" == tail;
  }

  /** A JSON body wrapped in a bare fence comes out as the trimmed body. */
  lemma BareFencedReply(body: string)
    requires '`' !in body
    ensures ExtractJson(FENCE + "\n" + body + "\n" + FENCE) == Trim(body + "\n")
  {
    StripBareFence(body);
    var b := FENCE + "\n" + body + "\n" + FENCE;
    assert FenceAt(b);
  }

  /** What `JSON.parse` yields from an outlet analysis. */
  datatype Reply = Reply(sentiment: string, score: Option<real>, summary: string,
                         mainConcerns: seq<string>, positiveAspects: seq<string>)

  /** The object `analyzePointVenteSentiment` returns; a field it leaves out
      is `None`. */
  datatype PointVenteSentiment = PointVenteSentiment(
    sentiment: string,
    score: Option<real>,
    summary: string,
    mainConcerns: Option<seq<string>>,
    positiveAspects: Option<seq<string>>,
    totalComments: Option<nat>,
    error: Option<string>,
    analyzed: bool)

  /** What the prompt carries: the mode, the outlet name shown, and the
      numbered comment list. */
  datatype Prompt = Prompt(clientMode: bool, name: string, commentsText: string)

  const NO_COMMENTS: PointVenteSentiment :=
    PointVenteSentiment("neutral", None, "Aucun commentaire disponible", None, None, None, None, false)
  const NOT_SIGNIFICANT: PointVenteSentiment :=
    PointVenteSentiment("neutral", None, "Aucun commentaire significatif", None, None, None, None, false)

  /** The record returned when the call or the parse throws. */
  function Failure(message: string): PointVenteSentiment
  {
    PointVenteSentiment("unknown", None, "Erreur lors de l'analyse automatique", Some([]), Some([]), None, Some(message), false)
  }

  function PromptFor(pointVente: string, valid: seq<string>): (p: Prompt)
    ensures p.clientMode <==> IsClientMode(pointVente)
    ensures p.commentsText == CommentsText(valid)
    ensures !p.clientMode ==> p.name == pointVente
  {
    var client := IsClientMode(pointVente);
    Prompt(client, if client then DisplayName(pointVente) else pointVente, CommentsText(valid))
  }

  /** `analyzePointVenteSentiment` with `ask` for the language-model call
      (its reply text) and `parse` for `JSON.parse`. */
  function AnalyzePointVente(pointVente: string, comments: seq<string>,
                             ask: Prompt -> Attempt<string>, parse: string -> Attempt<Reply>): (r: PointVenteSentiment)
    ensures comments == [] ==> r == NO_COMMENTS
    ensures comments != [] && ValidComments(comments) == [] ==> r == NOT_SIGNIFICANT
    ensures r.analyzed <==>
              ValidComments(comments) != [] && ask(PromptFor(pointVente, ValidComments(comments))).Done?
              && parse(ExtractJson(Trim(ask(PromptFor(pointVente, ValidComments(comments))).value))).Done?
    ensures r.analyzed ==> r.totalComments == Some(|ValidComments(comments)|)
    ensures r.sentiment == "unknown" && r.error.Some? ==> r == Failure(r.error.value)
    ensures ValidComments(comments) != [] && ask(PromptFor(pointVente, ValidComments(comments))).Threw? ==>
              r == Failure(ask(PromptFor(pointVente, ValidComments(comments))).message)
    ensures ValidComments(comments) != [] && ask(PromptFor(pointVente, ValidComments(comments))).Done? ==>
              var parsed := parse(ExtractJson(Trim(ask(PromptFor(pointVente, ValidComments(comments))).value)));
              && (parsed.Threw? ==> r == Failure(parsed.message))
              && (parsed.Done? ==>
                    var a := parsed.value;
                    r == PointVenteSentiment(a.sentiment, a.score, a.summary, Some(a.mainConcerns), Some(a.positiveAspects),
                                             Some(|ValidComments(comments)|), None, true))
  {
    if comments == [] then NO_COMMENTS
    else
      var valid := ValidComments(comments);
      if valid == [] then NOT_SIGNIFICANT
      else
        match ask(PromptFor(pointVente, valid))
        case Threw(m) => Failure(m)
        case Done(reply) =>
          match parse(ExtractJson(Trim(reply)))
          case Threw(m) => Failure(m)
          case Done(a) =>
            PointVenteSentiment(a.sentiment, a.score, a.summary, Some(a.mainConcerns), Some(a.positiveAspects),
                                Some(|valid|), None, true)
  }

  /** Blank and `neant` comments have no influence on the analysis. */
  lemma OnlyValidCommentsMatter(pointVente: string, a: seq<string>, b: seq<string>,
                                ask: Prompt -> Attempt<string>, parse: string -> Attempt<Reply>)
    requires a != [] && b != [] && ValidComments(a) == ValidComments(b)
    ensures AnalyzePointVente(pointVente, a, ask, parse) == AnalyzePointVente(pointVente, b, ask, parse)
  {
  }

  /** What `JSON.parse` yields from a day analysis. */
  datatype DayReply = DayReply(sentiment: string, score: Option<real>, summary: string,
                               keyPoints: seq<string>, issues: seq<string>, recommendations: seq<string>)

  /** The object `analyzeDaySentiment` returns; a field it leaves out is
      `None`. */
  datatype DayAnalysis = DayAnalysis(
    date: string,
    sentiment: string,
    score: Option<real>,
    summary: string,
    keyPoints: seq<string>,
    issues: Option<seq<string>>,
    recommendations: seq<string>,
    totalPointsVente: Option<nat>,
    analyzedAt: Option<string>,
    error: Option<string>)

  /** The record returned for a day when the call or the parse throws. */
  function DayFailure(date: string, count: nat, message: string): DayAnalysis
  {
    DayAnalysis(date, "unknown", None, "Erreur lors de l'analyse automatique.", ["Analyse non disponible"], Some([]),
                ["Vérifier la configuration de l'API OpenAI"], Some(count), None, Some(message))
  }

  /** `analyzeDaySentiment` over the day's activities, with `ask` for the
      language-model call on the day's data and `nowIso` for the clock. */
  function AnalyzeDay<E>(activities: seq<E>, date: string,
                         ask: (string, seq<E>) -> Attempt<string>, parse: string -> Attempt<DayReply>,
                         nowIso: string): (r: DayAnalysis)
    ensures r.date == date
    ensures activities == [] <==> r.totalPointsVente.None?
    ensures activities == [] ==>
              r == DayAnalysis(date, "neutral", None, "Aucune activité enregistrée pour cette date.", [], None, [], None, None, None)
    ensures activities != [] ==> r.totalPointsVente == Some(|activities|)
    ensures r.analyzedAt.Some? <==>
              activities != [] && ask(date, activities).Done? && parse(ExtractJson(Trim(ask(date, activities).value))).Done?
    ensures r.error.Some? ==>
              r.sentiment == "unknown" && r.score.None? && r.keyPoints == ["Analyse non disponible"]
              && r.issues == Some([]) && r.recommendations == ["Vérifier la configuration de l'API OpenAI"]
    ensures activities != [] && ask(date, activities).Threw? ==>
              r == DayFailure(date, |activities|, ask(date, activities).message)
    ensures activities != [] && ask(date, activities).Done? ==>
              var parsed := parse(ExtractJson(Trim(ask(date, activities).value)));
              && (parsed.Threw? ==> r == DayFailure(date, |activities|, parsed.message))
              && (parsed.Done? ==>
                    var a := parsed.value;
                    r == DayAnalysis(date, a.sentiment, a.score, a.summary, a.keyPoints, Some(a.issues), a.recommendations,
                                     Some(|activities|), Some(nowIso), None))
  {
    if activities == [] then
      DayAnalysis(date, "neutral", None, "Aucune activité enregistrée pour cette date.", [], None, [], None, None, None)
    else
      match ask(date, activities)
      case Threw(m) => DayFailure(date, |activities|, m)
      case Done(reply) =>
        match parse(ExtractJson(Trim(reply)))
        case Threw(m) => DayFailure(date, |activities|, m)
        case Done(a) =>
          DayAnalysis(date, a.sentiment, a.score, a.summary, a.keyPoints, Some(a.issues), a.recommendations,
                      Some(|activities|), Some(nowIso), None)
  }
}
