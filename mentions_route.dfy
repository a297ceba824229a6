/** The mention routes of backend/routes/mentions.js: the filtered, paginated
    list of mentions, and the record saved for a new mention, with its
    sentiment label taken from the analyzer's score and its topics extracted
    from the content. */
module MentionsRoute {
  import opened Wrappers
  import opened Seqs
  import opened Sorting
  import opened MentionSchema

  // ---------------------------------------------------------------------------
  // Topic extraction: lower-case, strip, split on ' ', filter, de-duplicate,
  // keep five.

  /** `c.toLowerCase()`. ASCII capitals become small letters. KELVIN SIGN and
      LATIN CAPITAL LETTER I WITH DOT ABOVE are the only other characters
      whose lower case holds an ASCII letter. Any other character is kept as
      it is: its lower case is an ASCII word character or whitespace only if
      it already is one, so the stripping step that follows removes the same
      characters either way. */
  function LowerChar(c: char): (r: string)
    ensures |r| >= 1
    ensures forall d :: d in r ==> !('A' <= d <= 'Z')
    ensures 'A' <= c <= 'Z' ==> |r| == 1 && r[0] as int - 'a' as int == c as int - 'A' as int
    ensures 'a' <= c <= 'z' || '0' <= c <= '9' || c == '_' || IsSpace(c) ==> r == [c]
  {
    if 'A' <= c <= 'Z' then [(c as int + 32) as char]
    else if c == '\U{212A}' then "k"
    else if c == '\U{0130}' then "i\U{0307}"
    else [c]
  }

  /** `s.toLowerCase()`. */
  function Lower(s: string): (r: string)
    ensures |r| >= |s|
    ensures forall c :: c in r ==> !('A' <= c <= 'Z')
  {
    if s == [] then [] else LowerChar(s[0]) + Lower(s[1..])
  }

  /** `toLowerCase` works character by character: lower-casing a
      concatenation concatenates the lower-cased parts. */
  lemma {:induction false} LowerAppend(a: string, b: string)
    ensures Lower(a + b) == Lower(a) + Lower(b)
  {
    if a == [] {
      assert a + b == b;
    } else {
      assert (a + b)[0] == a[0] && (a + b)[1..] == a[1..] + b;
      LowerAppend(a[1..], b);
    }
  }

  /** A single character lower-cases as `LowerChar` says. */
  lemma LowerSingle(c: char)
    ensures Lower([c]) == LowerChar(c)
  {
    assert [c][1..] == [];
  }

  /** `\w` of a regular expression without the `u` flag. */
  predicate IsWordChar(c: char) {
    'a' <= c <= 'z' || 'A' <= c <= 'Z' || '0' <= c <= '9' || c == '_'
  }

  /** `\s`: the ECMAScript white space and line terminator characters. */
  predicate IsSpace(c: char) {
    c == '\t' || c == '\n' || c == '\U{000B}' || c == '\U{000C}' || c == '\r' || c == ' '
    || c == '\U{00A0}' || c == '\U{1680}' || '\U{2000}' <= c <= '\U{200A}'
    || c == '\U{2028}' || c == '\U{2029}' || c == '\U{202F}' || c == '\U{205F}'
    || c == '\U{3000}' || c == '\U{FEFF}'
  }

  predicate Kept(c: char) {
    IsWordChar(c) || IsSpace(c)
  }

  /** `s.replace(/[^\w\s]/g, '')`. */
  function Strip(s: string): (r: string)
    ensures |r| <= |s|
    ensures forall c :: c in r ==> Kept(c) && c in s
    ensures forall c :: c in s && Kept(c) ==> c in r
    ensures forall c {:trigger Count(r, c)} :: Count(r, c) == if Kept(c) then Count(s, c) else 0
  {
    if s == [] then []
    else
      var h := if Kept(s[0]) then [s[0]] else [];
      var rest := Strip(s[1..]);
      assert s == [s[0]] + s[1..];
      assert forall c {:trigger Count(h + rest, c)} :: (Count(h + rest, c)
          == if Kept(c) then Count(s, c) else 0) by {
        FilterStepCount(s[0], s[1..], rest, (c: char) => Kept(c));
      }
      h + rest
  }

  /** The replacement runs over the string character by character: stripping
      a concatenation concatenates the stripped parts, in order. */
  lemma {:induction false} StripAppend(a: string, b: string)
    ensures Strip(a + b) == Strip(a) + Strip(b)
  {
    if a == [] {
      assert a + b == b;
    } else {
      assert (a + b)[0] == a[0] && (a + b)[1..] == a[1..] + b;
      StripAppend(a[1..], b);
    }
  }

  /** A single character survives exactly when it is a word or space character. */
  lemma StripSingle(c: char)
    ensures Strip([c]) == if Kept(c) then [c] else []
  {
    assert [c][1..] == [];
  }

  /** `s.split(' ')`: the pieces between single spaces, empty ones included;
      the empty string splits into one empty piece. */
  function Split(s: string): (r: seq<string>)
    ensures |r| >= 1
    ensures forall i :: 0 <= i < |r| ==> ' ' !in r[i]
    ensures forall i :: 0 <= i < |r| ==> forall c :: c in r[i] ==> c in s
  {
    if s == [] then [""]
    else
      assert s == [s[0]] + s[1..];
      var rest := Split(s[1..]);
      if s[0] == ' ' then [""] + rest
      else [[s[0]] + rest[0]] + rest[1..]
  }

  /** `pieces.join(' ')`. */
  function Join(pieces: seq<string>): string
    requires |pieces| >= 1
  {
    if |pieces| == 1 then pieces[0] else pieces[0] + " " + Join(pieces[1..])
  }

  /** The words `extractTopics` works on: the content lower-cased, stripped
      of everything but word characters and whitespace, split on spaces. */
  function Tokens(content: string): seq<string> {
    Split(Strip(Lower(content)))
  }

  const CommonWords: seq<string> :=
    ["the", "a", "an", "and", "or", "but", "in", "on", "at", "to", "for", "of", "with", "by"]

  predicate Qualifies(w: string) {
    |w| > 3 && w !in CommonWords
  }

  /** `.filter(word => word.length > 3 && !commonWords.includes(word))`. */
  function KeepTopicWords(ws: seq<string>): (r: seq<string>)
    ensures forall i :: 0 <= i < |r| ==> Qualifies(r[i]) && r[i] in ws
    ensures forall w :: w in ws && Qualifies(w) ==> w in r
  {
    if ws == [] then []
    else
      assert ws == [ws[0]] + ws[1..];
      (if Qualifies(ws[0]) then [ws[0]] else []) + KeepTopicWords(ws[1..])
  }

  /** `extractTopics(content)`: the first five distinct qualifying words. */
  function ExtractTopics(content: string): seq<string> {
    Take(Dedup(KeepTopicWords(Tokens(content))), 5)
  }

  /** Splitting and joining again gives back the string. */
  lemma {:induction false} SplitJoin(s: string)
    ensures Join(Split(s)) == s
  {
    if s != [] {
      var rest := Split(s[1..]);
      SplitJoin(s[1..]);
      if s[0] == ' ' {
        assert ([""] + rest)[1..] == rest;
      } else if |rest| == 1 {
        assert Split(s) == [[s[0]] + rest[0]];
      } else {
        var r := Split(s);
        assert r[1..] == rest[1..];
        assert Join(rest) == rest[0] + " " + Join(rest[1..]);
      }
    }
  }

  /** Splitting a string that starts with a space-free word extends its first piece. */
  lemma {:induction false} SplitAfterWord(w: string, t: string)
    requires ' ' !in w
    ensures Split(w + t) == [w + Split(t)[0]] + Split(t)[1..]
  {
    if w != [] {
      SplitAfterWord(w[1..], t);
      assert (w + t)[0] == w[0] && (w + t)[1..] == w[1..] + t;
      var st, rest := Split(t), Split(w[1..] + t);
      assert rest[0] == w[1..] + st[0] && rest[1..] == st[1..];
      assert [w[0]] + (w[1..] + st[0]) == w + st[0];
    } else {
      assert w + t == t && w + Split(t)[0] == Split(t)[0];
      assert Split(t) == [Split(t)[0]] + Split(t)[1..];
    }
  }

  /** Joining space-free pieces and splitting again gives back the pieces. */
  lemma {:induction false} JoinSplit(pieces: seq<string>)
    requires |pieces| >= 1
    requires forall i :: 0 <= i < |pieces| ==> ' ' !in pieces[i]
    ensures Split(Join(pieces)) == pieces
  {
    if |pieces| == 1 {
      SplitAfterWord(pieces[0], "");
      assert pieces[0] + "" == pieces[0];
    } else {
      var tail := Join(pieces[1..]);
      JoinSplit(pieces[1..]);
      assert (" " + tail)[1..] == tail;
      assert Split(" " + tail) == [""] + pieces[1..];
      assert Join(pieces) == pieces[0] + (" " + tail);
      SplitAfterWord(pieces[0], " " + tail);
      assert pieces[0] + "" == pieces[0];
      assert [pieces[0]] + pieces[1..] == pieces;
    }
  }

  /** Of the stop words only "with" is longer than three characters, so the
      list check removes nothing else. */
  lemma OnlyWithIsStopped(w: string)
    ensures Qualifies(w) <==> |w| > 3 && w != "with"
  {
  }

  /** The filter keeps the order of first occurrences. */
  lemma {:induction false} KeepOrder(ws: seq<string>, x: string, y: string)
    requires x in KeepTopicWords(ws) && y in KeepTopicWords(ws)
    requires IndexOf(KeepTopicWords(ws), x) < IndexOf(KeepTopicWords(ws), y)
    ensures x in ws && y in ws && IndexOf(ws, x) < IndexOf(ws, y)
  {
    var k := KeepTopicWords(ws);
    assert k[IndexOf(k, x)] in ws && k[IndexOf(k, y)] in ws;
    var r := KeepTopicWords(ws[1..]);
    var h := if Qualifies(ws[0]) then [ws[0]] else [];
    assert k == h + r;
    assert ws == [ws[0]] + ws[1..];
    if ws[0] == y {
      assert false;
    } else if ws[0] != x {
      assert x in r && y in r;
      IndexOfAfter(h, r, x);
      IndexOfAfter(h, r, y);
      KeepOrder(ws[1..], x, y);
      IndexOfAfter([ws[0]], ws[1..], x);
      IndexOfAfter([ws[0]], ws[1..], y);
    }
  }

  /** At most five topics, none twice, each a qualifying word of the
      normalised content: a piece of the split, lower-case, made of word
      characters and whitespace other than the space. */
  lemma ExtractTopicsFacts(content: string)
    ensures var r := ExtractTopics(content);
      |r| <= 5 && Distinct(r)
      && forall i :: 0 <= i < |r| ==>
           r[i] in Tokens(content) && |r[i]| > 3 && r[i] !in CommonWords
           && forall c :: c in r[i] ==> Kept(c) && c != ' ' && !('A' <= c <= 'Z')
  {
    var k := KeepTopicWords(Tokens(content));
    var d := Dedup(k);
    var r := ExtractTopics(content);
    forall i | 0 <= i < |r|
      ensures r[i] in Tokens(content) && |r[i]| > 3 && r[i] !in CommonWords
      ensures forall c :: c in r[i] ==> Kept(c) && c != ' ' && !('A' <= c <= 'Z')
    {
      assert r[i] == d[i] && d[i] in k;
      var j := IndexOf(k, r[i]);
      var t := IndexOf(Tokens(content), r[i]);
      assert Tokens(content)[t] == r[i];
    }
  }

  /** The topics keep the order in which they first occur among the words. */
  lemma ExtractTopicsOrder(content: string)
    ensures var r := ExtractTopics(content);
      forall i, j :: 0 <= i < j < |r| ==>
        r[i] in Tokens(content) && r[j] in Tokens(content)
        && IndexOf(Tokens(content), r[i]) < IndexOf(Tokens(content), r[j])
  {
    var k := KeepTopicWords(Tokens(content));
    var d := Dedup(k);
    var r := ExtractTopics(content);
    DedupFirstSeenOrder(k);
    forall i, j | 0 <= i < j < |r|
      ensures r[i] in Tokens(content) && r[j] in Tokens(content)
      ensures IndexOf(Tokens(content), r[i]) < IndexOf(Tokens(content), r[j])
    {
      assert r[i] == d[i] && r[j] == d[j];
      KeepOrder(Tokens(content), d[i], d[j]);
    }
  }

  /** A qualifying word is left out only when five other topics occur before it. */
  lemma ExtractTopicsFirstFive(content: string, x: string)
    requires x in Tokens(content) && Qualifies(x) && x !in ExtractTopics(content)
    ensures var r := ExtractTopics(content);
      |r| == 5 && forall i :: 0 <= i < 5 ==>
        r[i] in Tokens(content) && IndexOf(Tokens(content), r[i]) < IndexOf(Tokens(content), x)
  {
    var k := KeepTopicWords(Tokens(content));
    var d := Dedup(k);
    var r := ExtractTopics(content);
    assert x in k;
    var q := IndexOf(k, x);
    assert x in d;
    var p := IndexOf(d, x);
    assert |d| > 5 && r == d[..5];
    assert p >= 5;
    DedupFirstSeenOrder(k);
    forall i | 0 <= i < 5
      ensures r[i] in Tokens(content) && IndexOf(Tokens(content), r[i]) < IndexOf(Tokens(content), x)
    {
      assert r[i] == d[i] && d[p] == x;
      KeepOrder(Tokens(content), d[i], x);
    }
  }

  // ---------------------------------------------------------------------------
  // Sentiment label.

  /** The label given to the analyzer's score. */
  function Label(score: real): (s: Sentiment)
    ensures s == Positive <==> score > 0.1
    ensures s == Negative <==> score < -0.1
    ensures s == Neutral <==> -0.1 <= score <= 0.1
  {
    if score > 0.1 then Positive else if score < -0.1 then Negative else Neutral
  }

  function Rank(s: Sentiment): int {
    match s
    case Negative => 0
    case Neutral => 1
    case Positive => 2
  }

  /** A higher score never gets a lower label. */
  lemma LabelMonotone(a: real, b: real)
    requires a <= b
    ensures Rank(Label(a)) <= Rank(Label(b))
  {
  }

  /** The score that simulated mentions carry for their drawn sentiment. */
  function SimulatedScore(s: Sentiment): real {
    match s
    case Positive => 0.8
    case Negative => -0.7
    case Neutral => 0.0
  }

  /** The simulated scores would be labelled with the sentiment drawn. */
  lemma SimulatedScoreAgrees(s: Sentiment)
    ensures Label(SimulatedScore(s)) == s
  {
  }

  // ---------------------------------------------------------------------------
  // The record saved by `POST /`.

  /** The body fields the handler reads; None is a field the body lacks. */
  datatype NewMention = NewMention(
    brandName: Option<string>,
    source: Option<string>,
    content: Option<string>,
    engagement: Option<Engagement>)

  /** The enum value stored for a source string, if it is one. */
  function SourceOf(name: string): (r: Option<Source>)
    ensures r.Some? ==> SourceName(r.value) == name
    ensures r.None? ==> forall s :: SourceName(s) != name
  {
    if name == "twitter" then Some(Twitter)
    else if name == "facebook" then Some(Facebook)
    else if name == "news" then Some(News)
    else if name == "blog" then Some(Blog)
    else if name == "forum" then Some(Forum)
    else None
  }

  /** Engagement counters as saved: a missing counter takes its default 0. */
  function Filled(e: Option<Engagement>): (r: Engagement)
    ensures r.likes.Some? && r.shares.Some? && r.comments.Some?
    ensures e.None? ==> r == DefaultEngagement
    ensures e.Some? ==> OrZero(r.likes) == OrZero(e.value.likes)
    ensures e.Some? ==> OrZero(r.shares) == OrZero(e.value.shares)
    ensures e.Some? ==> OrZero(r.comments) == OrZero(e.value.comments)
  {
    match e
    case None => DefaultEngagement
    case Some(g) => Engagement(Some(OrZero(g.likes)), Some(OrZero(g.shares)), Some(OrZero(g.comments)))
  }

  /** The 400 response for a body the handler or the schema rejects.
      `score` is what the sentiment analyzer returns for the content's
      words; `now`, `hour` and `day` describe the clock at the call. */
  function CreateMention(body: NewMention, score: real, now: int, hour: Hour, day: int): (r: Result<Mention, int>)
    ensures r.Err? ==> r.error == 400
  {
    if body.content.None? then Err(400)
    else if body.brandName.None? || body.brandName.value == "" then Err(400)
    else if body.source.None? || SourceOf(body.source.value).None? then Err(400)
    else if body.content.value == "" then Err(400)
    else
      var content := body.content.value;
      Ok(Mention(body.brandName.value, SourceOf(body.source.value).value, content, Label(score), score,
        ExtractTopics(content), Filled(body.engagement), now, hour, day))
  }

  /** The body is accepted exactly when it has a content, a non-empty brand
      and content and a source of the enum; the saved record is labelled
      from its own score, carries the extracted topics, the clock's time
      with its hour and day, and the body's engagement with every counter
      filled in. */
  lemma CreateMentionFacts(body: NewMention, score: real, now: int, hour: Hour, day: int)
    ensures var r := CreateMention(body, score, now, hour, day);
      (r.Ok? <==>
         body.content.Some? && body.content.value != ""
         && body.brandName.Some? && body.brandName.value != ""
         && body.source.Some? && body.source.value in {"twitter", "facebook", "news", "blog", "forum"})
      && (r.Ok? ==>
            var m := r.value;
            m.brandName == body.brandName.value && SourceName(m.source) == body.source.value
            && m.content == body.content.value && m.sentiment == Label(m.sentimentScore)
            && m.sentimentScore == score && m.topics == ExtractTopics(m.content) && m.timestamp == now
            && m.engagement == Filled(body.engagement) && m.hour == hour && m.day == day
            && m.engagement.likes.Some? && m.engagement.shares.Some? && m.engagement.comments.Some?)
  {
    if body.source.Some? && SourceOf(body.source.value).None? {
      var v := body.source.value;
      assert SourceName(Twitter) != v && SourceName(Facebook) != v && SourceName(News) != v;
      assert SourceName(Blog) != v && SourceName(Forum) != v;
    }
  }

  // ---------------------------------------------------------------------------
  // The list: `GET /`.

  /** The query string as the handler reads it, numbers already parsed;
      None is a parameter the request lacks. */
  datatype ListQuery = ListQuery(
    brand: Option<string>,
    source: Option<string>,
    sentiment: Option<string>,
    startDate: Option<int>,
    endDate: Option<int>,
    page: Option<int>,
    limit: Option<int>)

  /** A parameter that is present and not the empty string, as `if (brand)` tests. */
  predicate Given(p: Option<string>) {
    p.Some? && p.value != ""
  }

  /** The `filter` document the handler builds, applied to one mention. */
  predicate Matches(q: ListQuery, m: Mention) {
    (Given(q.brand) ==> m.brandName == q.brand.value)
    && (Given(q.source) ==> SourceName(m.source) == q.source.value)
    && (Given(q.sentiment) ==> SentimentName(m.sentiment) == q.sentiment.value)
    && (q.startDate.Some? ==> m.timestamp >= q.startDate.value)
    && (q.endDate.Some? ==> m.timestamp <= q.endDate.value)
  }

  /** `Mention.find(filter)`, in store order: every stored copy of each
      matching mention, and nothing else. */
  function Matching(store: seq<Mention>, q: ListQuery): (r: seq<Mention>)
    ensures |r| <= |store|
    ensures forall m :: m in r <==> m in store && Matches(q, m)
    ensures forall m {:trigger Count(r, m)} :: Count(r, m) == if Matches(q, m) then Count(store, m) else 0
  {
    if store == [] then []
    else
      var h := if Matches(q, store[0]) then [store[0]] else [];
      var rest := Matching(store[1..], q);
      assert store == [store[0]] + store[1..];
      assert forall m {:trigger Count(h + rest, m)} :: (Count(h + rest, m)
          == if Matches(q, m) then Count(store, m) else 0) by {
        FilterStepCount(store[0], store[1..], rest, (m: Mention) => Matches(q, m));
      }
      h + rest
  }

  /** The filter runs over the store record by record: on a concatenation it
      is the concatenation of its results, in order. */
  lemma {:induction false} MatchingAppend(a: seq<Mention>, b: seq<Mention>, q: ListQuery)
    ensures Matching(a + b, q) == Matching(a, q) + Matching(b, q)
  {
    if a == [] {
      assert a + b == b;
    } else {
      assert (a + b)[1..] == a[1..] + b;
      MatchingAppend(a[1..], b, q);
    }
  }

  /** A single record is listed exactly when it matches the filter. */
  lemma MatchingSingle(m: Mention, q: ListQuery)
    ensures Matching([m], q) == if Matches(q, m) then [m] else []
  {
    assert [m][1..] == [];
  }

  function PageOf(q: ListQuery): int {
    if q.page.Some? then q.page.value else 1
  }

  function LimitOf(q: ListQuery): int {
    if q.limit.Some? then q.limit.value else 20
  }

  function Abs(n: int): nat {
    if n < 0 then -n else n
  }

  /** `Math.ceil(total / limit)`: None for the Infinity or NaN of a zero
      limit; a negative limit gives a page count of at most 0. */
  function PageCount(total: nat, limit: int): (r: Option<int>)
    ensures r.None? <==> limit == 0
    ensures limit > 0 ==> (r.value - 1) * limit < total <= r.value * limit
    ensures limit < 0 ==> r.value <= 0 && r.value * limit <= total < (r.value - 1) * limit
  {
    if limit == 0 then None
    else if limit > 0 then Some(CeilDiv(total, limit))
    else
      var f: int := FloorDiv(total, -limit);
      Some(-f)
  }

  /** The least number of blocks of `d` that hold `n`. */
  function CeilDiv(n: nat, d: nat): (r: int)
    requires d > 0
    ensures (r - 1) * d < n <= r * d
  {
    var r := (n + d - 1) / d;
    assert n + d - 1 == r * d + (n + d - 1) % d;
    assert (r - 1) * d == r * d - d;
    r
  }

  /** The number of whole blocks of `d` in `n`. */
  function FloorDiv(n: nat, d: nat): (r: nat)
    requires d > 0
    ensures r * d <= n < (r + 1) * d
  {
    var r := n / d;
    assert n == r * d + n % d;
    assert (r + 1) * d == r * d + d;
    r
  }

  /** What the handler sends. */
  datatype ListPage = ListPage(mentions: seq<Mention>, totalPages: Option<int>, currentPage: int, total: nat)

  /** The matching mentions, newest first. */
  function Newest(store: seq<Mention>, q: ListQuery): seq<Mention> {
    SortDesc(Matching(store, q), TimestampKey)
  }

  /** `GET /`: `.sort({ timestamp: -1 }).limit(limit * 1).skip((page - 1) * limit)`
      and the page count. The database refuses a negative skip, which the
      handler answers with status 500. A zero limit means no limit; a
      negative one returns as many as its absolute value. */
  function ListMentions(store: seq<Mention>, q: ListQuery): (r: Result<ListPage, int>)
    ensures r.Err? <==> (PageOf(q) - 1) * LimitOf(q) < 0
    ensures r.Err? ==> r.error == 500
    ensures r.Ok? ==> r.value.total == |Matching(store, q)| && r.value.currentPage == PageOf(q)
    ensures r.Ok? ==> r.value.totalPages == PageCount(r.value.total, LimitOf(q))
  {
    var page, limit := PageOf(q), LimitOf(q);
    var skip := (page - 1) * limit;
    if skip < 0 then Err(500)
    else
      Ok(ListPage(Window(Newest(store, q), skip, limit), PageCount(|Matching(store, q)|, limit), page,
        |Matching(store, q)|))
  }

  /** `.limit(limit).skip(skip)` on a result list: the skip comes first. */
  function Window(all: seq<Mention>, skip: nat, limit: int): seq<Mention> {
    var rest := Drop(all, skip);
    if limit == 0 then rest else Take(rest, Abs(limit))
  }

  /** The window of a newest-first list is newest first and part of it. */
  lemma WindowOfSorted(all: seq<Mention>, skip: nat, limit: int)
    requires SortedDesc(all, TimestampKey)
    ensures var w := Window(all, skip, limit);
      SortedDesc(w, TimestampKey) && forall i :: 0 <= i < |w| ==> w[i] in all
  {
    var w := Window(all, skip, limit);
    forall i, j | 0 <= i < j < |w| ensures TimestampKey(w[i]) >= TimestampKey(w[j]) {
      assert w[i] == all[skip + i] && w[j] == all[skip + j];
    }
    forall i | 0 <= i < |w| ensures w[i] in all {
      assert w[i] == all[skip + i];
    }
  }

  /** A page is the run of the newest-first matches that follows the
      skipped ones: as long as the limit allows, or all of them for a zero
      limit. */
  lemma ListMentionsWindow(store: seq<Mention>, q: ListQuery)
    requires ListMentions(store, q).Ok?
    ensures var p := ListMentions(store, q).value;
      var skip := (PageOf(q) - 1) * LimitOf(q);
      var all := Newest(store, q);
      var left := if skip < |all| then |all| - skip else 0;
      |p.mentions| == (if LimitOf(q) == 0 || left <= Abs(LimitOf(q)) then left else Abs(LimitOf(q)))
      && forall i :: 0 <= i < |p.mentions| ==> p.mentions[i] == all[skip + i]
  {
    var skip := (PageOf(q) - 1) * LimitOf(q);
    assert ListMentions(store, q).value.mentions == Window(Newest(store, q), skip, LimitOf(q));
    WindowShape(Newest(store, q), skip, LimitOf(q));
  }

  /** The skip/limit window: as many as the limit allows of what follows the
      skipped elements, in order. */
  lemma WindowShape(all: seq<Mention>, skip: nat, limit: int)
    ensures var w := Window(all, skip, limit);
      var left := if skip < |all| then |all| - skip else 0;
      |w| == (if limit == 0 || left <= Abs(limit) then left else Abs(limit))
      && forall i :: 0 <= i < |w| ==> w[i] == all[skip + i]
  {
  }

  /** Every mention of a page matches the filter, and the page is newest first. */
  lemma ListMentionsMembers(store: seq<Mention>, q: ListQuery)
    requires ListMentions(store, q).Ok?
    ensures var p := ListMentions(store, q).value;
      (forall i :: 0 <= i < |p.mentions| ==> p.mentions[i] in store && Matches(q, p.mentions[i]))
      && SortedDesc(p.mentions, TimestampKey)
  {
    var m := Matching(store, q);
    var all := Newest(store, q);
    var p := ListMentions(store, q).value;
    SortDescSorted(m, TimestampKey);
    PermutationMembers(all, m);
    WindowOfSorted(all, (PageOf(q) - 1) * LimitOf(q), LimitOf(q));
    assert forall i :: 0 <= i < |p.mentions| ==> p.mentions[i] in all;
  }

  /** With a positive limit, a page from the first one on has mentions
      exactly when its number does not exceed the page count. */
  lemma PageWithinCount(store: seq<Mention>, q: ListQuery)
    requires PageOf(q) >= 1 && LimitOf(q) > 0
    ensures var r := ListMentions(store, q);
      r.Ok? && r.value.totalPages.Some?
      && (r.value.mentions != [] <==> PageOf(q) <= r.value.totalPages.value)
  {
    var page, limit := PageOf(q), LimitOf(q);
    var total := |Matching(store, q)|;
    var c := PageCount(total, limit).value;
    assert |Newest(store, q)| == total;
    if page <= c {
      MultiplyMonotone(page - 1, c - 1, limit);
    } else {
      MultiplyMonotone(c, page - 1, limit);
    }
  }

  lemma MultiplyMonotone(a: int, b: int, n: nat)
    requires a <= b
    ensures a * n <= b * n
  {
  }

  /** Query parameters that are absent or empty do not constrain the match. */
  lemma UnsuppliedFiltersMatchAll(q: ListQuery, m: Mention)
    requires !Given(q.brand) && !Given(q.source) && !Given(q.sentiment)
    requires q.startDate.None? && q.endDate.None?
    ensures Matches(q, m)
  {
  }

  /** Both date bounds are inclusive. */
  lemma DateBoundsInclusive(q: ListQuery, m: Mention)
    requires !Given(q.brand) && !Given(q.source) && !Given(q.sentiment)
    requires q.startDate.Some? && q.endDate.Some?
    ensures Matches(q, m) <==> q.startDate.value <= m.timestamp <= q.endDate.value
  {
  }
}
