/**
 * The helpers of the Gmail client `EnhancedGmailClassifier` that work on the
 * classifier's answers: the keywords attached to each email, the Gmail search
 * query built from the keywords of a category, and the grouping of the answers
 * by urgency and by department for the report. Fetching mail, calling the
 * service over HTTP and writing the reports are not part of this model.
 */
module GmailHelpers {
  import opened Wrappers
  import opened Text
  import opened Ranking
  import opened Patterns

  // ----------------------------------------------------------------------------
  // Subject words: `re.findall(r'\b\w{4,}\b', subject.lower())`
  // ----------------------------------------------------------------------------

  /** Length of the run of word characters at the start of `s`. */
  function RunLength(s: string): (n: nat)
    ensures n <= |s|
    ensures forall j :: 0 <= j < n ==> IsWordChar(s[j])
    ensures n == |s| || !IsWordChar(s[n])
  {
    if s == [] || !IsWordChar(s[0]) then 0 else 1 + RunLength(s[1..])
  }

  /** The maximal runs of word characters of `s`, left to right. */
  function Runs(s: string): seq<string>
    decreases |s|
  {
    if s == [] then []
    else if !IsWordChar(s[0]) then Runs(s[1..])
    else
      var n := RunLength(s);
      [s[..n]] + (if n < |s| then Runs(s[n + 1..]) else [])
  }

  /** `w` is a whole word of `s` at index `i`: a non-empty run of word characters
      with a word boundary (`\b`) on either side. */
  predicate Standalone(s: string, w: string, i: int) {
    && OccursAt(s, w, i) && w != []
    && (forall j :: 0 <= j < |w| ==> IsWordChar(w[j]))
    && (i == 0 || !IsWordChar(s[i - 1]))
    && (i + |w| == |s| || !IsWordChar(s[i + |w|]))
  }

  /** A whole word of a suffix that starts after a boundary is a whole word of `s`. */
  lemma ShiftStandalone(s: string, k: nat, w: string, j: int)
    requires 0 < k <= |s| && !IsWordChar(s[k - 1])
    requires Standalone(s[k..], w, j)
    ensures Standalone(s, w, k + j)
  {
    assert s[k + j..k + j + |w|] == s[k..][j..j + |w|];
    if j > 0 {
      assert s[k + j - 1] == s[k..][j - 1];
    }
    if k + j + |w| < |s| {
      assert s[k + j + |w|] == s[k..][j + |w|];
    }
  }

  /** Every run found is a whole word of `s`. */
  lemma {:induction false} RunsAreStandalone(s: string, w: string)
    requires w in Runs(s)
    ensures exists i :: Standalone(s, w, i)
    decreases |s|
  {
    if !IsWordChar(s[0]) {
      RunsAreStandalone(s[1..], w);
      var j :| Standalone(s[1..], w, j);
      ShiftStandalone(s, 1, w, j);
    } else {
      var n := RunLength(s);
      if w == s[..n] {
        assert Standalone(s, w, 0);
      } else {
        RunsAreStandalone(s[n + 1..], w);
        var j :| Standalone(s[n + 1..], w, j);
        ShiftStandalone(s, n + 1, w, j);
      }
    }
  }

  /** A whole word of `s` that starts after a boundary at `k` is a whole word of `s[k..]`. */
  lemma UnshiftStandalone(s: string, k: nat, w: string, i: int)
    requires Standalone(s, w, i) && 0 < k <= i && !IsWordChar(s[k - 1])
    ensures Standalone(s[k..], w, i - k)
  {
    assert s[k..][i - k..i - k + |w|] == s[i..i + |w|];
    if i - k > 0 {
      assert s[k..][i - k - 1] == s[i - 1];
    }
    if i + |w| < |s| {
      assert s[k..][i - k + |w|] == s[i + |w|];
    }
  }

  /** A whole word that does not start `s` starts after the leading run and the
      character that ends it. */
  lemma StandaloneAfterRun(s: string, w: string, i: int)
    requires Standalone(s, w, i) && i > 0 && IsWordChar(s[0])
    ensures RunLength(s) < i && !IsWordChar(s[RunLength(s)])
  {
  }

  /** Every whole word of `s` is found as a run. */
  lemma {:induction false} StandaloneInRuns(s: string, w: string, i: int)
    requires Standalone(s, w, i)
    ensures w in Runs(s)
    decreases |s|
  {
    if !IsWordChar(s[0]) {
      UnshiftStandalone(s, 1, w, i);
      StandaloneInRuns(s[1..], w, i - 1);
    } else if i == 0 {
      assert forall j :: 0 <= j < |w| ==> s[j] == w[j];
      assert RunLength(s) == |w|;
    } else {
      StandaloneAfterRun(s, w, i);
      var k := RunLength(s) + 1;
      UnshiftStandalone(s, k, w, i);
      StandaloneInRuns(s[k..], w, i - k);
    }
  }

  /** The runs of at least four characters, in order. */
  function LongRuns(runs: seq<string>): (r: seq<string>)
    ensures forall w :: w in r <==> w in runs && |w| >= 4
  {
    if runs == [] then []
    else (if |runs[0]| >= 4 then [runs[0]] else []) + LongRuns(runs[1..])
  }

  /** `LongRuns` filters run by run: it distributes over concatenation and keeps a
      single run exactly when it has at least four characters. */
  lemma {:induction false} LongRunsAppend(a: seq<string>, b: seq<string>, w: string)
    ensures LongRuns(a + b) == LongRuns(a) + LongRuns(b)
    ensures LongRuns([w]) == if |w| >= 4 then [w] else []
    decreases |a|
  {
    assert [w][1..] == [];
    if a == [] {
      assert a + b == b;
    } else {
      assert (a + b)[0] == a[0] && (a + b)[1..] == a[1..] + b;
      LongRunsAppend(a[1..], b, w);
    }
  }

  /** `re.findall(r'\b\w{4,}\b', subject.lower())` on ASCII text. */
  function SubjectWords(subject: string): seq<string> {
    LongRuns(Runs(Lower(subject)))
  }

  /** The subject words are exactly the whole words of at least four characters of
      the lower-cased subject, and none of them holds an upper-case letter. */
  lemma SubjectWordsAreWholeWords(subject: string, w: string)
    ensures w in SubjectWords(subject) <==> |w| >= 4 && exists i :: Standalone(Lower(subject), w, i)
    ensures w in SubjectWords(subject) ==> forall j :: 0 <= j < |w| ==> !IsUpper(w[j])
  {
    if w in SubjectWords(subject) {
      RunsAreStandalone(Lower(subject), w);
      var i :| Standalone(Lower(subject), w, i);
      PieceOfLowerHasNoUpper(subject, w, i);
    }
    if |w| >= 4 && exists i :: Standalone(Lower(subject), w, i) {
      var i :| Standalone(Lower(subject), w, i);
      StandaloneInRuns(Lower(subject), w, i);
    }
  }

  // ----------------------------------------------------------------------------
  // Keywords: `extract_keywords`
  // ----------------------------------------------------------------------------

  /** The words added for an urgency level. */
  function UrgencyKeywords(l: Level): seq<string> {
    match l
    case Critical => ["urgent", "critical", "emergency", "asap"]
    case High => ["important", "urgent", "priority"]
    case _ => []
  }

  /** The words added for a department. */
  function DepartmentKeywords(d: Department): seq<string> {
    match d
    case Technical => ["server", "api", "database", "system", "error", "bug"]
    case Billing => ["payment", "invoice", "billing", "charge", "money"]
    case Sales => ["demo", "trial", "pricing", "meeting", "opportunity"]
    case Support => []
  }

  function Min(a: nat, b: nat): nat { if a <= b then a else b }

  predicate NoDuplicates<T(==)>(s: seq<T>) {
    forall i, j :: 0 <= i < j < |s| ==> s[i] != s[j]
  }

  /** The distinct elements of `xs`, each at its first occurrence. */
  function Distinct<T(==,!new)>(xs: seq<T>): (r: seq<T>)
    ensures NoDuplicates(r)
    ensures forall x :: x in r <==> x in xs
    ensures |r| <= |xs|
  {
    if xs == [] then []
    else
      var n := |xs| - 1;
      assert xs == xs[..n] + [xs[n]];
      var p := Distinct(xs[..n]);
      if xs[n] in p then p else p + [xs[n]]
  }

  /** A list without duplicates has as many elements as its set. */
  lemma {:induction false} NoDuplicatesCard<T(!new)>(s: seq<T>)
    requires NoDuplicates(s)
    ensures |set x | x in s| == |s|
    decreases |s|
  {
    if s != [] {
      var n := |s| - 1;
      NoDuplicatesCard(s[..n]);
      assert (set x | x in s) == (set x | x in s[..n]) + {s[n]};
      assert s[n] !in s[..n];
    }
  }

  /** A list holds at least as many distinct elements as any duplicate-free list of
      its elements. */
  lemma DistinctAtLeast<T(!new)>(xs: seq<T>, ys: seq<T>)
    requires NoDuplicates(ys) && forall y :: y in ys ==> y in xs
    ensures |Distinct(xs)| >= |ys|
  {
    NoDuplicatesCard(ys);
    NoDuplicatesCard(Distinct(xs));
    var a, b := set y | y in ys, set x | x in Distinct(xs);
    assert b == a + (b - a);
    assert a * (b - a) == {};
  }

  /** The words `extract_keywords` collects before removing duplicates: the first
      three subject words, then the urgency words, then the department words. */
  function Collected(subject: string, u: Level, d: Department): seq<string> {
    var words := SubjectWords(subject);
    words[..Min(3, |words|)] + UrgencyKeywords(u) + DepartmentKeywords(d)
  }

  /** `list(set(keywords))[:6]`, with the answer's urgency and department; `subject`
      is `None` when it is not text and `lower()` raises, which yields the fallback
      `['email', 'message']`. The set is listed in first-occurrence order. */
  function ExtractKeywords(subject: Option<string>, u: Level, d: Department): (r: seq<string>)
    ensures subject.None? ==> r == ["email", "message"]
    ensures NoDuplicates(r) && |r| <= 6
    ensures subject.Some? ==> forall x :: x in r ==> x in Collected(subject.value, u, d)
    ensures subject.Some? && |Distinct(Collected(subject.value, u, d))| <= 6 ==>
      forall x :: x in Collected(subject.value, u, d) ==> x in r
    ensures subject.Some? && |Distinct(Collected(subject.value, u, d))| > 6 ==> |r| == 6
  {
    match subject
    case None => ["email", "message"]
    case Some(s) =>
      var unique := Distinct(Collected(s, u, d));
      var r := unique[..Min(6, |unique|)];
      assert forall x :: x in r ==> x in unique;
      r
  }

  /** A keyword that is neither an urgency word nor a department word is one of the
      first three subject words: a whole word of the lower-cased subject, at least
      four characters long and free of upper-case letters. */
  lemma KeywordFromSubject(subject: string, u: Level, d: Department, x: string)
    requires x in ExtractKeywords(Some(subject), u, d)
    requires x !in UrgencyKeywords(u) && x !in DepartmentKeywords(d)
    ensures exists k :: 0 <= k < Min(3, |SubjectWords(subject)|) && SubjectWords(subject)[k] == x
    ensures |x| >= 4 && exists i :: Standalone(Lower(subject), x, i)
    ensures forall j :: 0 <= j < |x| ==> !IsUpper(x[j])
  {
    var words := SubjectWords(subject);
    assert x in words[..Min(3, |words|)];
    SubjectWordsAreWholeWords(subject, x);
  }

  lemma SevenDistinct()
    ensures NoDuplicates(["api", "asap", "error", "urgent", "server", "critical", "emergency"])
  {
    var s := ["api", "asap", "error", "urgent", "server", "critical", "emergency"];
    forall i, j | 0 <= i < j < |s| ensures s[i] != s[j] {
      assert |s[i]| != |s[j]| || s[i][0] != s[j][0];
    }
  }

  /** A critical technical email always gets six keywords: the urgency and
      department words alone are more than six distinct ones. */
  lemma CriticalTechnicalFillsSix(subject: string)
    ensures |ExtractKeywords(Some(subject), Critical, Technical)| == 6
  {
    var words := SubjectWords(subject);
    var fixed := UrgencyKeywords(Critical) + DepartmentKeywords(Technical);
    var c := Collected(subject, Critical, Technical);
    assert c == words[..Min(3, |words|)] + fixed;
    var seven := ["api", "asap", "error", "urgent", "server", "critical", "emergency"];
    SevenDistinct();
    assert forall y :: y in seven ==> y in c;
    DistinctAtLeast(c, seven);
  }

  /** Without urgency or department words every keyword comes from the subject, and
      the keywords are exactly the first (at most three) subject words. */
  lemma PlainEmailKeywords(subject: string, u: Level)
    requires u == Medium || u == Low
    ensures var words := SubjectWords(subject);
      forall x :: x in ExtractKeywords(Some(subject), u, Support) <==> x in words[..Min(3, |words|)]
  {
    var c := Collected(subject, u, Support);
    assert |Distinct(c)| <= 6;
  }

  // ----------------------------------------------------------------------------
  // Search queries: `generate_gmail_search_queries`
  // ----------------------------------------------------------------------------

  /** One entry of the client's results: an answer of the service with the keywords
      attached to it, or the error the call produced. */
  datatype Reply = Failed(error: string) | Labelled(urgency: Level, department: Department, keywords: seq<string>)

  /** `email.get('keywords', [])` */
  function KeywordsOf(r: Reply): seq<string> {
    if r.Labelled? then r.keywords else []
  }

  /** The keywords of all emails, in order. */
  function AllKeywords(emails: seq<Reply>): (all: seq<string>)
    ensures all == [] <==> forall i :: 0 <= i < |emails| ==> KeywordsOf(emails[i]) == []
  {
    if emails == [] then []
    else
      var n := |emails| - 1;
      assert forall i :: 0 <= i < n ==> emails[..n][i] == emails[i];
      AllKeywords(emails[..n]) + KeywordsOf(emails[n])
  }

  /** Number of occurrences of `x` in `xs`. */
  function Occurrences<T(==)>(xs: seq<T>, x: T): (n: nat)
    ensures n > 0 <==> x in xs
  {
    if xs == [] then 0
    else
      var m := |xs| - 1;
      assert xs == xs[..m] + [xs[m]];
      Occurrences(xs[..m], x) + (if xs[m] == x then 1 else 0)
  }

  /** A keyword with its count, as held by `keyword_counts`. */
  type Item = (string, nat)

  function CountOf(p: Item): real { p.1 as real }

  /** `keyword_counts.items()`: every distinct keyword with its count, in the order
      the keywords were first seen. */
  function Items(all: seq<string>): (items: seq<Item>)
    ensures |items| == |Distinct(all)|
    ensures forall i :: 0 <= i < |items| ==> items[i] == (Distinct(all)[i], Occurrences(all, Distinct(all)[i]))
  {
    var keys := Distinct(all);
    seq(|keys|, i requires 0 <= i < |keys| => (keys[i], Occurrences(all, keys[i])))
  }

  /** `sorted(keyword_counts.items(), key=lambda x: x[1], reverse=True)[:3]` */
  function TopItems(all: seq<string>): seq<Item> {
    var sorted := SortDesc(Items(all), CountOf);
    sorted[..Min(3, |sorted|)]
  }

  /** `[kw[0] for kw in top_keywords]` */
  function Names(items: seq<Item>): (names: seq<string>)
    ensures |names| == |items|
    ensures forall i :: 0 <= i < |items| ==> names[i] == items[i].0
  {
    seq(|items|, i requires 0 <= i < |items| => items[i].0)
  }

  function TopTerms(all: seq<string>): seq<string> {
    Names(TopItems(all))
  }

  /** The query for one category: `None` when the category has no emails or its
      emails carry no keywords, otherwise the top terms joined by " OR " in
      parentheses. */
  function Query(emails: seq<Reply>): Option<string> {
    if emails == [] then None
    else
      var terms := TopTerms(AllKeywords(emails));
      if terms == [] then None else Some("(" + Join(terms, " OR ") + ")")
  }

  /** A list without duplicates holds every element once. */
  lemma {:induction false} NoDuplicatesOnce<T>(s: seq<T>, x: T)
    requires NoDuplicates(s)
    ensures multiset(s)[x] <= 1
    decreases |s|
  {
    if s != [] {
      var n := |s| - 1;
      assert s == s[..n] + [s[n]];
      NoDuplicatesOnce(s[..n], x);
      if s[n] == x {
        assert x !in s[..n];
      }
    }
  }

  /** A list with two equal elements holds that element at least twice. */
  lemma TwiceIfRepeated<T>(s: seq<T>, i: nat, j: nat)
    requires i < j < |s| && s[i] == s[j]
    ensures multiset(s)[s[i]] >= 2
  {
    assert s == s[..i] + [s[i]] + s[i + 1..j] + [s[j]] + s[j + 1..];
  }

  /** Reordering keeps a list free of duplicates. */
  lemma PermutationNoDuplicates<T>(a: seq<T>, b: seq<T>)
    requires multiset(a) == multiset(b) && NoDuplicates(a)
    ensures NoDuplicates(b)
  {
    forall i, j | 0 <= i < j < |b| ensures b[i] != b[j] {
      if b[i] == b[j] {
        TwiceIfRepeated(b, i, j);
        NoDuplicatesOnce(a, b[i]);
      }
    }
  }

  /** Facts about the sorted items: a duplicate-free reordering of the items, by
      descending count. */
  lemma SortedItems(all: seq<string>)
    ensures var sorted := SortDesc(Items(all), CountOf);
      && |sorted| == |Distinct(all)|
      && SortedDesc(sorted, CountOf)
      && NoDuplicates(Names(sorted))
      && (forall i :: 0 <= i < |sorted| ==> sorted[i] in Items(all))
      && (forall x :: x in Items(all) ==> x in sorted)
  {
    var items := Items(all);
    var sorted := SortDesc(items, CountOf);
    SortDescCorrect(items, CountOf);
    assert forall x :: x in items <==> x in multiset(items);
    assert forall x :: x in sorted <==> x in multiset(sorted);
    assert NoDuplicates(items) by {
      forall i, j | 0 <= i < j < |items| ensures items[i] != items[j] {
        assert items[i].0 == Distinct(all)[i] && items[j].0 == Distinct(all)[j];
      }
    }
    PermutationNoDuplicates(items, sorted);
    var names := Names(sorted);
    forall i, j | 0 <= i < j < |names| ensures names[i] != names[j] {
      assert sorted[i] in items && sorted[j] in items;
      assert sorted[i] != sorted[j];
    }
  }

  /** The query uses at most three terms: as many distinct keywords as there are, up
      to three, each once, each a keyword of the category. */
  lemma TopTermsAreDistinctKeywords(all: seq<string>)
    ensures |TopTerms(all)| == Min(3, |Distinct(all)|)
    ensures NoDuplicates(TopTerms(all))
    ensures forall t :: t in TopTerms(all) ==> t in all
  {
    SortedItems(all);
    var sorted := SortDesc(Items(all), CountOf);
    var m := Min(3, |sorted|);
    assert TopTerms(all) == Names(sorted)[..m];
    forall t | t in TopTerms(all) ensures t in all {
      var i :| 0 <= i < m && TopTerms(all)[i] == t;
      assert sorted[i] in Items(all);
    }
  }

  lemma ItemCounts(all: seq<string>, x: Item)
    requires x in Items(all)
    ensures x.1 == Occurrences(all, x.0)
  {
  }

  lemma EarlyItemIsTop(all: seq<string>, j: nat)
    requires j < Min(3, |SortDesc(Items(all), CountOf)|)
    ensures SortDesc(Items(all), CountOf)[j].0 in TopTerms(all)
  {
    assert TopTerms(all)[j] == SortDesc(Items(all), CountOf)[j].0;
  }

  /** No keyword left out of the query is more frequent than one in it. */
  lemma TopTermsAreMostFrequent(all: seq<string>, t: string, u: string)
    requires t in TopTerms(all) && u in all && u !in TopTerms(all)
    ensures Occurrences(all, t) >= Occurrences(all, u)
  {
    SortedItems(all);
    var items := Items(all);
    var sorted := SortDesc(items, CountOf);
    var m := Min(3, |sorted|);
    var i :| 0 <= i < m && TopTerms(all)[i] == t;
    var k :| 0 <= k < |Distinct(all)| && Distinct(all)[k] == u;
    assert items[k] in sorted;
    var j :| 0 <= j < |sorted| && sorted[j] == items[k];
    if j < m {
      EarlyItemIsTop(all, j);
    }
    assert sorted[i].0 == t;
    assert CountOf(sorted[i]) >= CountOf(sorted[j]);
    ItemCounts(all, sorted[i]);
  }

  /** Ties keep first-seen order: for every count, the chosen keywords with that
      count are the first ones seen with it, in the order they were seen. */
  lemma TopTermsTiesInFirstSeenOrder(all: seq<string>, c: real)
    ensures WithKey(TopItems(all), CountOf, c) <= WithKey(Items(all), CountOf, c)
  {
    var sorted := SortDesc(Items(all), CountOf);
    var m := Min(3, |sorted|);
    assert sorted == sorted[..m] + sorted[m..];
    WithKeyAppend(sorted[..m], sorted[m..], CountOf, c);
    SortDescStable(Items(all), CountOf, c);
  }

  /** A category gets a query exactly when some of its emails carry keywords. */
  lemma QueryIffKeywords(emails: seq<Reply>)
    ensures Query(emails).Some? <==> exists i :: 0 <= i < |emails| && KeywordsOf(emails[i]) != []
  {
    TopTermsAreDistinctKeywords(AllKeywords(emails));
  }

  /** Every part occurs in the joined string. */
  lemma {:induction false} JoinHasPart(parts: seq<string>, sep: string, k: nat)
    requires k < |parts|
    ensures exists i :: OccursAt(Join(parts, sep), parts[k], i)
    decreases |parts|
  {
    var j := Join(parts, sep);
    if k == 0 {
      assert OccursAt(j, parts[0], 0);
    } else {
      JoinHasPart(parts[1..], sep, k - 1);
      var rest := Join(parts[1..], sep);
      var i :| OccursAt(rest, parts[1..][k - 1], i);
      var off := |parts[0]| + |sep|;
      assert j == parts[0] + sep + rest;
      assert j[off + i..off + i + |parts[k]|] == rest[i..i + |parts[k]|];
      assert OccursAt(j, parts[k], off + i);
    }
  }

  /** Putting a string in parentheses keeps what occurs in it. */
  lemma ParenthesisedContains(body: string, t: string, i: int)
    requires OccursAt(body, t, i)
    ensures var q := "(" + body + ")"; q[0] == '(' && q[|q| - 1] == ')' && Contains(q, t)
  {
    var q := "(" + body + ")";
    assert q[1 + i..1 + i + |t|] == body[i..i + |t|];
    OccurrenceIsContained(q, t, 1 + i);
  }

  /** A query is a parenthesised list that mentions each of its top terms. */
  lemma QueryMentionsTopTerms(emails: seq<Reply>, t: string)
    requires Query(emails).Some? && t in TopTerms(AllKeywords(emails))
    ensures var q := Query(emails).value; q[0] == '(' && q[|q| - 1] == ')' && Contains(q, t)
  {
    var terms := TopTerms(AllKeywords(emails));
    var k :| 0 <= k < |terms| && terms[k] == t;
    JoinHasPart(terms, " OR ", k);
    var i :| OccursAt(Join(terms, " OR "), t, i);
    ParenthesisedContains(Join(terms, " OR "), t, i);
  }

  /** `all_keywords.extend(email.get('keywords', []))` for every email. */
  method CollectKeywords(emails: seq<Reply>) returns (all: seq<string>)
    ensures all == AllKeywords(emails)
  {
    all := [];
    for i := 0 to |emails|
      invariant all == AllKeywords(emails[..i])
    {
      assert emails[..i + 1][..i] == emails[..i];
      all := all + KeywordsOf(emails[i]);
    }
    assert emails[..|emails|] == emails;
  }

  /** `keyword_counts[kw] = keyword_counts.get(kw, 0) + 1` for every keyword; `order`
      is the dictionary's insertion order. */
  method CountKeywords(all: seq<string>) returns (counts: map<string, nat>, order: seq<string>)
    ensures order == Distinct(all)
    ensures forall k :: k in counts <==> k in all
    ensures forall k :: k in counts ==> counts[k] == Occurrences(all, k)
  {
    counts, order := map[], [];
    for i := 0 to |all|
      invariant order == Distinct(all[..i])
      invariant forall k :: k in counts <==> k in all[..i]
      invariant forall k :: k in counts ==> counts[k] == Occurrences(all[..i], k)
    {
      var kw := all[i];
      assert all[..i + 1][..i] == all[..i];
      if kw !in counts {
        order := order + [kw];
      }
      counts := counts[kw := (if kw in counts then counts[kw] else 0) + 1];
    }
    assert all[..|all|] == all;
  }

  /** The body of the loop over the categories: the query of one category. */
  method BuildQuery(emails: seq<Reply>) returns (q: Option<string>)
    ensures q == Query(emails)
  {
    if emails == [] {
      return None;
    }
    var all := CollectKeywords(emails);
    var counts, order := CountKeywords(all);
    var items := seq(|order|, i requires 0 <= i < |order| => (order[i], counts[order[i]]));
    assert items == Items(all);
    var sorted := SortDesc(items, CountOf);
    var terms := Names(sorted[..Min(3, |sorted|)]);
    if terms == [] {
      return None;
    }
    q := Some("(" + Join(terms, " OR ") + ")");
  }

  /** Category names are distinct, as the keys of a dictionary are. */
  predicate DistinctKeys<K(==), V>(entries: seq<(K, V)>) {
    forall i, j :: 0 <= i < j < |entries| ==> entries[i].0 != entries[j].0
  }

  /** `generate_gmail_search_queries` over the dictionary's entries in order: every
      category gets its query, and only the categories with a query appear. */
  method SearchQueries<K(==)>(byCategory: seq<(K, seq<Reply>)>) returns (searches: map<K, string>)
    requires DistinctKeys(byCategory)
    ensures forall i :: 0 <= i < |byCategory| ==>
      && (byCategory[i].0 in searches <==> Query(byCategory[i].1).Some?)
      && (byCategory[i].0 in searches ==> searches[byCategory[i].0] == Query(byCategory[i].1).value)
    ensures forall k :: k in searches ==> exists i :: 0 <= i < |byCategory| && byCategory[i].0 == k
  {
    searches := map[];
    for n := 0 to |byCategory|
      invariant forall i :: 0 <= i < n ==>
        && (byCategory[i].0 in searches <==> Query(byCategory[i].1).Some?)
        && (byCategory[i].0 in searches ==> searches[byCategory[i].0] == Query(byCategory[i].1).value)
      invariant forall k :: k in searches ==> exists i :: 0 <= i < n && byCategory[i].0 == k
    {
      var (category, emails) := byCategory[n];
      var q := BuildQuery(emails);
      if q.Some? {
        searches := searches[category := q.value];
      }
    }
  }

  // ----------------------------------------------------------------------------
  // Report grouping: the loop of `generate_html_report`
  // ----------------------------------------------------------------------------

  /** The elements of `s` that satisfy `p`, in order. */
  function Keep<T>(s: seq<T>, p: T -> bool): seq<T> {
    if s == [] then [] else Keep(s[..|s| - 1], p) + (if p(s[|s| - 1]) then [s[|s| - 1]] else [])
  }

  /** Filtering distributes over concatenation. */
  lemma {:induction false} KeepAppend<T>(a: seq<T>, b: seq<T>, p: T -> bool)
    ensures Keep(a + b, p) == Keep(a, p) + Keep(b, p)
    decreases |b|
  {
    if b == [] {
      assert a + b == a;
    } else {
      var n := |b| - 1;
      assert (a + b)[..|a + b| - 1] == a + b[..n] && (a + b)[|a + b| - 1] == b[n];
      KeepAppend(a, b[..n], p);
    }
  }

  predicate IsLabelled(r: Reply) {
    r.Labelled?
  }

  function HasUrgency(l: Level): Reply -> bool {
    (r: Reply) => r.Labelled? && r.urgency == l
  }

  function HasDepartment(d: Department): Reply -> bool {
    (r: Reply) => r.Labelled? && r.department == d
  }

  /** The answers without an error, in order. */
  function Answered(rs: seq<Reply>): seq<Reply> {
    Keep(rs, IsLabelled)
  }

  /** The answered list holds exactly the labelled answers. */
  lemma {:induction false} AnsweredMembers(rs: seq<Reply>)
    ensures forall x :: x in Answered(rs) <==> x in rs && x.Labelled?
    decreases |rs|
  {
    if rs != [] {
      var n := |rs| - 1;
      assert rs == rs[..n] + [rs[n]];
      AnsweredMembers(rs[..n]);
    }
  }

  /** The answers of urgency `l`, in order. */
  function InUrgency(rs: seq<Reply>, l: Level): seq<Reply> {
    Keep(rs, HasUrgency(l))
  }

  /** The bucket holds exactly the labelled answers of urgency `l`. */
  lemma {:induction false} InUrgencyMembers(rs: seq<Reply>, l: Level)
    ensures forall x :: x in InUrgency(rs, l) <==> x in rs && x.Labelled? && x.urgency == l
    decreases |rs|
  {
    if rs != [] {
      var n := |rs| - 1;
      assert rs == rs[..n] + [rs[n]];
      InUrgencyMembers(rs[..n], l);
    }
  }

  /** The answers of department `d`, in order. */
  function InDepartment(rs: seq<Reply>, d: Department): seq<Reply> {
    Keep(rs, HasDepartment(d))
  }

  /** The bucket holds exactly the labelled answers of department `d`. */
  lemma {:induction false} InDepartmentMembers(rs: seq<Reply>, d: Department)
    ensures forall x :: x in InDepartment(rs, d) <==> x in rs && x.Labelled? && x.department == d
    decreases |rs|
  {
    if rs != [] {
      var n := |rs| - 1;
      assert rs == rs[..n] + [rs[n]];
      InDepartmentMembers(rs[..n], d);
    }
  }

  /** `Answered` distributes over concatenation; with `AnsweredSnoc` this says its
      result is the subsequence of the labelled answers, in order. */
  lemma AnsweredAppend(a: seq<Reply>, b: seq<Reply>)
    ensures Answered(a + b) == Answered(a) + Answered(b)
  {
    KeepAppend(a, b, IsLabelled);
  }

  /** Appending one answer appends it to the answered list exactly when it is labelled. */
  lemma AnsweredSnoc(s: seq<Reply>, y: Reply)
    ensures Answered(s + [y]) == Answered(s) + (if y.Labelled? then [y] else [])
  {
    assert (s + [y])[..|s|] == s;
  }

  /** `InUrgency` distributes over concatenation; with `InUrgencySnoc` this says its
      result is the subsequence of the answers of urgency `l`, in order. */
  lemma InUrgencyAppend(a: seq<Reply>, b: seq<Reply>, l: Level)
    ensures InUrgency(a + b, l) == InUrgency(a, l) + InUrgency(b, l)
  {
    KeepAppend(a, b, HasUrgency(l));
  }

  /** Appending one answer appends it to the bucket exactly when it is a labelled
      answer of urgency `l`. */
  lemma InUrgencySnoc(s: seq<Reply>, y: Reply, l: Level)
    ensures InUrgency(s + [y], l) == InUrgency(s, l) + (if y.Labelled? && y.urgency == l then [y] else [])
  {
    assert (s + [y])[..|s|] == s;
  }

  /** `InDepartment` distributes over concatenation; with `InDepartmentSnoc` this says
      its result is the subsequence of the answers of department `d`, in order. */
  lemma InDepartmentAppend(a: seq<Reply>, b: seq<Reply>, d: Department)
    ensures InDepartment(a + b, d) == InDepartment(a, d) + InDepartment(b, d)
  {
    KeepAppend(a, b, HasDepartment(d));
  }

  /** Appending one answer appends it to the bucket exactly when it is a labelled
      answer of department `d`. */
  lemma InDepartmentSnoc(s: seq<Reply>, y: Reply, d: Department)
    ensures InDepartment(s + [y], d) == InDepartment(s, d) + (if y.Labelled? && y.department == d then [y] else [])
  {
    assert (s + [y])[..|s|] == s;
  }

  /** Every answer lands in exactly one urgency bucket: the buckets together hold
      as many entries as there are answers. */
  lemma {:induction false} UrgencyBucketsPartition(rs: seq<Reply>)
    ensures |InUrgency(rs, Critical)| + |InUrgency(rs, High)| + |InUrgency(rs, Medium)| + |InUrgency(rs, Low)|
         == |Answered(rs)|
    decreases |rs|
  {
    if rs != [] {
      UrgencyBucketsPartition(rs[..|rs| - 1]);
    }
  }

  /** Every answer lands in exactly one department bucket. */
  lemma {:induction false} DepartmentBucketsPartition(rs: seq<Reply>)
    ensures |InDepartment(rs, Technical)| + |InDepartment(rs, Billing)| + |InDepartment(rs, Sales)| + |InDepartment(rs, Support)|
         == |Answered(rs)|
    decreases |rs|
  {
    if rs != [] {
      DepartmentBucketsPartition(rs[..|rs| - 1]);
    }
  }

  /** Appending one more result to buckets that hold the first `i` results. */
  lemma UrgencyBucketsStep(m: map<Level, seq<Reply>>, results: seq<Reply>, i: nat)
    requires i < |results|
    requires forall l: Level :: l in m && m[l] == InUrgency(results[..i], l)
    ensures var r := results[i];
      var m' := if r.Labelled? then m[r.urgency := m[r.urgency] + [r]] else m;
      forall l: Level :: l in m' && m'[l] == InUrgency(results[..i + 1], l)
  {
    assert results[..i + 1][..i] == results[..i];
  }

  lemma DepartmentBucketsStep(m: map<Department, seq<Reply>>, results: seq<Reply>, i: nat)
    requires i < |results|
    requires forall d: Department :: d in m && m[d] == InDepartment(results[..i], d)
    ensures var r := results[i];
      var m' := if r.Labelled? then m[r.department := m[r.department] + [r]] else m;
      forall d: Department :: d in m' && m'[d] == InDepartment(results[..i + 1], d)
  {
    assert results[..i + 1][..i] == results[..i];
  }

  /** `results_by_urgency[urgency].append(result)` and the same by department, for
      every result without an error. */
  method GroupResults(results: seq<Reply>)
    returns (byUrgency: map<Level, seq<Reply>>, byDepartment: map<Department, seq<Reply>>)
    ensures forall l: Level :: l in byUrgency && byUrgency[l] == InUrgency(results, l)
    ensures forall d: Department :: d in byDepartment && byDepartment[d] == InDepartment(results, d)
  {
    byUrgency := map[Critical := [], High := [], Medium := [], Low := []];
    byDepartment := map[Technical := [], Billing := [], Sales := [], Support := []];
    assert results[..0] == [];
    forall l: Level ensures l in byUrgency && byUrgency[l] == InUrgency(results[..0], l) {
      match l
      case Critical =>
      case High =>
      case Medium =>
      case Low =>
    }
    forall d: Department ensures d in byDepartment && byDepartment[d] == InDepartment(results[..0], d) {
      match d
      case Technical =>
      case Billing =>
      case Sales =>
      case Support =>
    }
    for i := 0 to |results|
      invariant forall l: Level :: l in byUrgency && byUrgency[l] == InUrgency(results[..i], l)
      invariant forall d: Department :: d in byDepartment && byDepartment[d] == InDepartment(results[..i], d)
    {
      var result := results[i];
      UrgencyBucketsStep(byUrgency, results, i);
      DepartmentBucketsStep(byDepartment, results, i);
      if result.Labelled? {
        byUrgency := byUrgency[result.urgency := byUrgency[result.urgency] + [result]];
        byDepartment := byDepartment[result.department := byDepartment[result.department] + [result]];
      }
    }
    assert results[..|results|] == results;
  }

  function LevelIndex(l: Level): nat {
    match l
    case Critical => 0
    case High => 1
    case Medium => 2
    case Low => 3
  }

  function DepartmentIndex(d: Department): nat {
    match d
    case Technical => 0
    case Billing => 1
    case Sales => 2
    case Support => 3
  }

  /** `generate_gmail_search_queries(results_by_urgency)` */
  method UrgencySearches(byUrgency: map<Level, seq<Reply>>) returns (searches: map<Level, string>)
    requires forall l: Level :: l in byUrgency
    ensures forall l: Level ::
      && (l in searches <==> Query(byUrgency[l]).Some?)
      && (l in searches ==> searches[l] == Query(byUrgency[l]).value)
  {
    var entries := [(Critical, byUrgency[Critical]), (High, byUrgency[High]), (Medium, byUrgency[Medium]), (Low, byUrgency[Low])];
    searches := SearchQueries(entries);
    forall l: Level
      ensures entries[LevelIndex(l)] == (l, byUrgency[l])
    {
    }
  }

  /** `generate_gmail_search_queries(results_by_department)` */
  method DepartmentSearches(byDepartment: map<Department, seq<Reply>>) returns (searches: map<Department, string>)
    requires forall d: Department :: d in byDepartment
    ensures forall d: Department ::
      && (d in searches <==> Query(byDepartment[d]).Some?)
      && (d in searches ==> searches[d] == Query(byDepartment[d]).value)
  {
    var entries := [(Technical, byDepartment[Technical]), (Billing, byDepartment[Billing]),
                    (Sales, byDepartment[Sales]), (Support, byDepartment[Support])];
    searches := SearchQueries(entries);
    forall d: Department
      ensures entries[DepartmentIndex(d)] == (d, byDepartment[d])
    {
    }
  }

  /** The queries of the report: the results are grouped, then the urgency buckets
      (critical, high, medium, low) and the department buckets (technical, billing,
      sales, support) each get their query. */
  method ReportQueries(results: seq<Reply>)
    returns (urgencySearches: map<Level, string>, departmentSearches: map<Department, string>)
    ensures forall l: Level ::
      && (l in urgencySearches <==> Query(InUrgency(results, l)).Some?)
      && (l in urgencySearches ==> urgencySearches[l] == Query(InUrgency(results, l)).value)
    ensures forall d: Department ::
      && (d in departmentSearches <==> Query(InDepartment(results, d)).Some?)
      && (d in departmentSearches ==> departmentSearches[d] == Query(InDepartment(results, d)).value)
  {
    var byUrgency, byDepartment := GroupResults(results);
    urgencySearches := UrgencySearches(byUrgency);
    departmentSearches := DepartmentSearches(byDepartment);
  }
}
