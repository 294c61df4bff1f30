/** The two printers of SQL literals, against the scanner that reads them. */
module SqlLiterals {
  import opened DecimalDigits
  import opened JsText
  import opened Options
  import opened SqlLocality
  import opened SqlScanner

  // ---------------------------------------------------------------- plain literals

  /** Every quote doubled. */
  function Doubled(v: string): string {
    if v == "" then "" else (if v[0] == '\'' then "''" else [v[0]]) + Doubled(v[1..])
  }

  /** Every doubled quote read as one. */
  function Undoubled(s: string): string {
    if s == "" then ""
    else if 1 < |s| && s[0] == '\'' && s[1] == '\'' then "'" + Undoubled(s[2..])
    else [s[0]] + Undoubled(s[1..])
  }

  function Lit(v: Option<string>): string {
    if v.None? then "NULL" else "'" + Doubled(v.value) + "'"
  }

  lemma {:induction false} UndoubledDoubled(v: string)
    ensures Undoubled(Doubled(v)) == v
  {
    if v != "" {
      UndoubledDoubled(v[1..]);
      var rest := Doubled(v[1..]);
      if v[0] == '\'' {
        assert Doubled(v) == "''" + rest && ("''" + rest)[2..] == rest;
      } else {
        assert Doubled(v) == [v[0]] + rest && ([v[0]] + rest)[1..] == rest;
      }
    }
  }

  /** The search for the closing quote runs over doubled quotes and stops at the first single one. */
  lemma {:induction false} QuoteSearch(sql: string, i: nat, v: string, post: string)
    requires i <= |sql| && sql[i..] == Doubled(v) + "'" + post
    requires post == "" || post[0] != '\''
    ensures QuotedEnd(sql, i, '\'', false) == i + |Doubled(v)| + 1
    decreases |v|
  {
    var tail := sql[i..];
    if v == "" {
      assert tail == "'" + post && sql[i] == tail[0] == '\'';
      if post != "" { assert sql[i + 1] == tail[1] == post[0]; }
      if i + 2 <= |sql| { assert sql[i..i + 2][1] == sql[i + 1]; }
    } else if v[0] == '\'' {
      var rest := Doubled(v[1..]);
      assert Doubled(v) == "''" + rest;
      assert tail == "''" + (rest + "'" + post);
      assert sql[i..i + 2] == tail[..2] == "''";
      assert sql[i + 2..] == tail[2..] == rest + "'" + post;
      QuoteSearch(sql, i + 2, v[1..], post);
    } else {
      var rest := Doubled(v[1..]);
      assert Doubled(v) == [v[0]] + rest;
      assert tail == [v[0]] + (rest + "'" + post);
      assert sql[i] == tail[0] == v[0];
      assert sql[i + 1..] == tail[1..] == rest + "'" + post;
      AtStarts(sql, i, "''");
      QuoteSearch(sql, i + 1, v[1..], post);
    }
  }

  lemma {:induction false} BehindQuote(pre: string, body: string, post: string)
    ensures var sql := pre + ("'" + body + "'") + post;
            && sql[|pre|] == '\'' && sql[|pre| + 1..] == body + "'" + post
            && sql[|pre| + 1..|pre| + |body| + 1] == body
  {
  }

  /**
   A printed literal is read back: unless an E prefix stands before it or a quote follows, the scanner takes exactly
   the literal as one string, and undoubling what is between the quotes gives the value.
   */
  lemma {:induction false} LitIsReadBack(pre: string, v: string, post: string)
    requires post == "" || post[0] != '\''
    requires !HasEscapeStringPrefix(pre + Lit(Some(v)) + post, |pre|)
    ensures var sql, lit := pre + Lit(Some(v)) + post, Lit(Some(v));
            && TokenAt(sql, |pre|) == Token(Quoted('\''), |pre| + |lit|)
            && Undoubled(sql[|pre| + 1..|pre| + |lit| - 1]) == v
  {
    var sql := pre + Lit(Some(v)) + post;
    BehindQuote(pre, Doubled(v), post);
    AtStarts(sql, |pre|, "--");
    AtStarts(sql, |pre|, "/*");
    QuoteSearch(sql, |pre| + 1, v, post);
    UndoubledDoubled(v);
  }

  // ---------------------------------------------------------------- dollar tags

  /** The tags tried, in order: `$po$`, `$po1$`, `$po2$`, and so on. */
  function Tag(i: nat): (tag: string)
    ensures 4 <= |tag| && tag[0] == '$' && tag[1] == 'p' && tag[2] == 'o' && tag[|tag| - 1] == '$'
    ensures forall k :: 0 < k < |tag| - 1 ==> IsTagChar(tag[k])
  {
    "$po" + (if i == 0 then "" else Digits(i)) + "$"
  }

  predicate Contains(v: string, tag: string) {
    exists k | 0 <= k < |v| :: At(v, k, tag)
  }

  lemma {:induction false} TagInjective(m: nat, n: nat)
    requires Tag(m) == Tag(n)
    ensures m == n
  {
    assert Tag(m)[3..|Tag(m)| - 1] == (if m == 0 then "" else Digits(m));
    assert Tag(n)[3..|Tag(n)| - 1] == (if n == 0 then "" else Digits(n));
    if m != 0 && n != 0 { DigitsInjective(m, n); }
  }

  /** Where a tag stands, the next dollar sign is its end. */
  lemma {:induction false} TagEndsAtDollar(v: string, k: nat, n: nat)
    requires At(v, k, Tag(n))
    ensures TagStop(v, k + 1) == k + |Tag(n)| - 1
  {
    var tag := Tag(n);
    assert forall j {:trigger v[j]} :: k <= j < k + |tag| ==> v[j] == v[k..k + |tag|][j - k];
  }

  /** Two tags at one position are the same tag: the second dollar sign ends both. */
  lemma {:induction false} OneTagPerPosition(v: string, k: nat, m: nat, n: nat)
    requires At(v, k, Tag(m)) && At(v, k, Tag(n))
    ensures m == n
  {
    TagEndsAtDollar(v, k, m);
    TagEndsAtDollar(v, k, n);
    TagInjective(m, n);
  }

  lemma {:induction false} BoundedSet(s: set<nat>, n: nat)
    requires forall x :: x in s ==> x < n
    ensures |s| <= n
  {
    if n == 0 {
      assert s == {};
    } else {
      BoundedSet(s - {n - 1}, n - 1);
    }
  }

  /** One place in `v` for every tag tried so far. */
  ghost predicate PlacesOf(v: string, places: set<nat>, i: nat) {
    |places| == i && forall p :: p in places ==> p < |v| && exists k: nat :: k < i && At(v, p, Tag(k))
  }

  lemma {:induction false} NextPlace(v: string, places: set<nat>, i: nat) returns (more: set<nat>)
    requires PlacesOf(v, places, i) && Contains(v, Tag(i))
    ensures PlacesOf(v, more, i + 1) && i + 1 <= |v|
  {
    var p: nat :| p < |v| && At(v, p, Tag(i));
    if p in places {
      var k: nat :| k < i && At(v, p, Tag(k));
      OneTagPerPosition(v, p, k, i);
      assert false;
    }
    more := places + {p};
    BoundedSet(more, |v|);
  }

  /** Prints the string between two copies of the first tag it does not contain. */
  method DollarQuote(v: string) returns (literal: string, i: nat)
    ensures literal == Tag(i) + v + Tag(i)
    ensures !Contains(v, Tag(i)) && forall k :: 0 <= k < i ==> Contains(v, Tag(k))
    ensures i <= |v|
  {
    var tag := Tag(0);
    i := 0;
    ghost var places: set<nat> := {};
    while Contains(v, tag)
      invariant tag == Tag(i) && i <= |v|
      invariant forall k :: 0 <= k < i ==> Contains(v, Tag(k))
      invariant PlacesOf(v, places, i)
      decreases |v| - i
    {
      places := NextPlace(v, places, i);
      i := i + 1;
      tag := Tag(i);
    }
    literal := tag + v + tag;
  }

  // ---------------------------------------------------------------- reading a dollar quote back

  /** The search stops right behind the first occurrence of the tag. */
  lemma {:induction false} FirstOccurrence(sql: string, i: nat, tag: string, q: nat)
    requires i <= q && At(sql, q, tag) && forall k :: i <= k < q ==> !At(sql, k, tag)
    ensures i <= |sql| && DollarEnd(sql, i, tag) == q + |tag|
    decreases q - i
  {
    if i < q { FirstOccurrence(sql, i + 1, tag, q); }
  }

  /** A tag overlaps itself only by its dollar sign. */
  lemma {:induction false} TagOverlap(n: nat, m: nat)
    requires 0 < m < |Tag(n)| && Tag(n)[|Tag(n)| - m..] == Tag(n)[..m]
    ensures m == 1
  {
    assert Tag(n)[|Tag(n)| - m..][0] == Tag(n)[|Tag(n)| - m];
    assert Tag(n)[..m][0] == '$';
  }

  /** The string ends in the tag minus its last dollar sign. */
  predicate EndsInTag(v: string, tag: string)
    requires tag != ""
  {
    |tag| - 1 <= |v| && v[|v| - (|tag| - 1)..] == tag[..|tag| - 1]
  }

  /** An occurrence of the tag before the closing one straddles the end of the string, by one dollar sign. */
  lemma {:induction false} EarlyOccurrence(v: string, n: nat, post: string, r: nat)
    requires !Contains(v, Tag(n)) && r < |v|
    requires At(v + Tag(n) + post, r, Tag(n))
    ensures r == |v| - (|Tag(n)| - 1) && EndsInTag(v, Tag(n))
  {
    var tag := Tag(n);
    var w := v + tag + post;
    if r + |tag| <= |v| {
      assert v[r..r + |tag|] == w[r..r + |tag|];
      assert At(v, r, tag);
      assert false;
    } else {
      var m := r + |tag| - |v|;
      assert w[r..r + |tag|] == v[r..] + tag[..m];
      assert tag[|tag| - m..] == (v[r..] + tag[..m])[|v| - r..] == tag[..m];
      TagOverlap(n, m);
      assert v[r..] == tag[..|tag| - 1];
    }
  }

  lemma {:induction false} OccurrenceAtEnd(v: string, n: nat, post: string)
    requires EndsInTag(v, Tag(n))
    ensures At(v + Tag(n) + post, |v| - (|Tag(n)| - 1), Tag(n))
  {
    var tag := Tag(n);
    var w, r := v + tag + post, |v| - (|tag| - 1);
    assert w[r..r + |tag|] == v[r..] + tag[..1];
    assert tag == tag[..|tag| - 1] + [tag[|tag| - 1]];
  }

  lemma {:induction false} AtShifted(pre: string, w: string, k: nat, word: string)
    ensures At(pre + w, |pre| + k, word) == At(w, k, word)
  {
    if k + |word| <= |w| { assert (pre + w)[|pre| + k..|pre| + k + |word|] == w[k..k + |word|]; }
  }

  /** Where the closing search stops: at the closing tag, or one dollar sign short of it. */
  lemma {:induction false} TagAtStop(v: string, n: nat, post: string)
    ensures At(v + Tag(n) + post, if EndsInTag(v, Tag(n)) then |v| - (|Tag(n)| - 1) else |v|, Tag(n))
  {
    var tag := Tag(n);
    if EndsInTag(v, tag) {
      OccurrenceAtEnd(v, n, post);
    } else {
      assert (v + tag + post)[|v|..|v| + |tag|] == tag;
    }
  }

  /** Where the first tag behind the opening one stands. */
  function FirstStop(v: string, tag: string): nat
    requires tag != ""
  {
    if EndsInTag(v, tag) then |v| - (|tag| - 1) else |v|
  }

  lemma {:induction false} NoTagBefore(v: string, n: nat, post: string, k: nat)
    requires !Contains(v, Tag(n)) && k < FirstStop(v, Tag(n))
    ensures !At(v + Tag(n) + post, k, Tag(n))
  {
    if At(v + Tag(n) + post, k, Tag(n)) { EarlyOccurrence(v, n, post, k); }
  }

  /** From `from` on, the tag stands first at `stop`. */
  ghost predicate ClosesAt(sql: string, from: nat, stop: nat, tag: string) {
    && from <= stop && At(sql, stop, tag)
    && forall k: nat :: from <= k < stop ==> !At(sql, k, tag)
  }

  lemma {:induction false} NoTagBetween(pre: string, v: string, n: nat, post: string, k: nat)
    requires !Contains(v, Tag(n)) && |pre| <= k < |pre| + FirstStop(v, Tag(n))
    ensures !At(pre + (v + Tag(n) + post), k, Tag(n))
  {
    AtShifted(pre, v + Tag(n) + post, k - |pre|, Tag(n));
    NoTagBefore(v, n, post, k - |pre|);
  }

  lemma {:induction false} StopIsFirst(pre: string, v: string, n: nat, post: string)
    requires !Contains(v, Tag(n))
    ensures ClosesAt(pre + (v + Tag(n) + post), |pre|, |pre| + FirstStop(v, Tag(n)), Tag(n))
  {
    var tag := Tag(n);
    TagAtStop(v, n, post);
    AtShifted(pre, v + tag + post, FirstStop(v, tag), tag);
    forall k: nat | |pre| <= k < |pre| + FirstStop(v, tag) ensures !At(pre + (v + tag + post), k, tag) {
      NoTagBetween(pre, v, n, post, k);
    }
  }

  /** Behind its opening tag, the printed literal closes with the first tag. */
  lemma {:induction false} ClosingSearch(pre: string, v: string, n: nat, post: string)
    requires !Contains(v, Tag(n))
    ensures DollarEnd(pre + (v + Tag(n) + post), |pre|, Tag(n)) == |pre| + FirstStop(v, Tag(n)) + |Tag(n)|
  {
    StopIsFirst(pre, v, n, post);
    FirstOccurrence(pre + (v + Tag(n) + post), |pre|, Tag(n), |pre| + FirstStop(v, Tag(n)));
  }

  lemma {:induction false} OpeningTag(sql: string, i: nat, n: nat)
    requires At(sql, i, Tag(n)) && !FollowsIdentifier(sql, i)
    ensures HasTag(sql, i) && TagAt(sql, i) == Tag(n)
    ensures TokenAt(sql, i) == Token(Kind.Dollar, DollarEnd(sql, i + |Tag(n)|, Tag(n)))
  {
    TagEndsAtDollar(sql, i, n);
    AtStarts(sql, i, "--");
    AtStarts(sql, i, "/*");
    AtStarts(sql, i, Tag(n));
    assert sql[i..i + |Tag(n)|][1] == sql[i + 1] && sql[i..i + |Tag(n)|][|Tag(n)| - 1] == sql[i + |Tag(n)| - 1];
  }

  lemma {:induction false} Regrouped(pre: string, tag: string, v: string, post: string)
    ensures pre + (tag + v + tag) + post == (pre + tag) + (v + tag + post)
  {
    assert tag + v + tag == tag + (v + tag);
    assert (v + tag) + post == v + (tag + post);
  }

  lemma {:induction false} Middle(a: string, b: string, c: string)
    ensures (a + b + c)[|a|..|a| + |b|] == b && (a + (b + c))[|a|..|a| + |b|] == b && (a + (b + c))[..|a|] == a
  {
  }

  lemma {:induction false} Around(sql: string, i: nat, tag: string, v: string)
    requires At(sql, i, tag + v + tag)
    ensures At(sql, i, tag) && sql[i + |tag|..i + |tag| + |v|] == v
    ensures sql == sql[..i + |tag|] + (v + tag + sql[i + |tag| + |v| + |tag|..])
  {
    var pre, post := sql[..i], sql[i + |tag| + |v| + |tag|..];
    assert sql == pre + (tag + v + tag) + post;
    Regrouped(pre, tag, v, post);
    Middle(pre + tag, v + tag, post);
    Middle(pre + tag, v, tag + post);
    assert v + (tag + post) == v + tag + post;
    Middle(pre, tag, v + tag + post);
    assert pre + (tag + (v + tag + post)) == (pre + tag) + (v + tag + post);
  }

  lemma {:induction false} TokenOfQuote(sql: string, i: nat, v: string, n: nat, post: string)
    requires At(sql, i, Tag(n)) && !FollowsIdentifier(sql, i) && !Contains(v, Tag(n))
    requires sql == sql[..i + |Tag(n)|] + (v + Tag(n) + post)
    ensures TokenAt(sql, i) == Token(Kind.Dollar, i + |Tag(n)| + FirstStop(v, Tag(n)) + |Tag(n)|)
  {
    OpeningTag(sql, i, n);
    ClosingSearch(sql[..i + |Tag(n)|], v, n, post);
  }

  /** What stands between two tags of this length, from `i` to `end`. */
  function Between(sql: string, i: nat, end: nat, tag: string): string
    requires i + |tag| <= end - |tag| && end <= |sql|
  {
    sql[i + |tag|..end - |tag|]
  }

  /**
   A printed dollar quote is read back: standing at `i` where no identifier runs into it, the scanner takes a
   dollar-quoted string whose value is the printed one up to its first stop, and that is the whole literal with the whole
   value if and only if the value does not end in the chosen tag minus its last `$`.
   */
  lemma {:induction false} DollarIsReadBack(sql: string, i: nat, v: string, n: nat)
    requires At(sql, i, Tag(n) + v + Tag(n)) && !FollowsIdentifier(sql, i) && !Contains(v, Tag(n))
    ensures var stop := FirstStop(v, Tag(n));
            && TokenAt(sql, i) == Token(Kind.Dollar, i + |Tag(n)| + stop + |Tag(n)|)
            && Between(sql, i, TokenAt(sql, i).end, Tag(n)) == v[..stop]
    ensures TokenAt(sql, i).end == i + |Tag(n) + v + Tag(n)| <==> !EndsInTag(v, Tag(n))
    ensures Between(sql, i, TokenAt(sql, i).end, Tag(n)) == v <==> !EndsInTag(v, Tag(n))
  {
    var tag, stop := Tag(n), FirstStop(v, Tag(n));
    Around(sql, i, tag, v);
    TokenOfQuote(sql, i, v, n, sql[i + |tag| + |v| + |tag|..]);
    assert sql[i + |tag|..i + |tag| + stop] == sql[i + |tag|..i + |tag| + |v|][..stop];
  }

  lemma {:induction false} FirstTag()
    ensures Tag(0) == "$po$" && !Contains("$po", Tag(0)) && FirstStop("$po", Tag(0)) == 0
  {
    assert "$po$"[..3] == "$po" && "$po"[0..] == "$po";
  }

  /** The shortest string that is not read back: its literal is closed by the tail of the string itself, with nothing in it. */
  lemma {:induction false} ATagTailBreaksTheQuote(sql: string)
    requires sql == Tag(0) + "$po" + Tag(0)
    ensures !Contains("$po", Tag(0)) && sql == "$po$$po$po$"
    ensures TokenAt(sql, 0) == Token(Kind.Dollar, 8) && Between(sql, 0, 8, Tag(0)) == ""
  {
    FirstTag();
    assert sql[0..|sql|] == sql;
    DollarIsReadBack(sql, 0, "$po", 0);
  }
}
