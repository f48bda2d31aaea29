/** The text `signTwilioWebhook` signs: the URL, then every parameter's key and value with the keys in ascending order.
  However the parameters were listed, the text is the same. */
module WebhookSignature {
  datatype Entry = Entry(key: string, value: string)

  /** JavaScript's `<` on strings: by the first differing code unit, and a prefix comes first. */
  predicate Less(a: string, b: string) {
    b != "" && (a == "" || a[0] < b[0] || (a[0] == b[0] && Less(a[1..], b[1..])))
  }

  lemma {:induction false} LessIsStrict(a: string)
    ensures !Less(a, a)
  {
    if a != "" {
      LessIsStrict(a[1..]);
    }
  }

  lemma {:induction false} LessIsTotal(a: string, b: string)
    ensures Less(a, b) || Less(b, a) || a == b
  {
    if a != "" && b != "" && a[0] == b[0] {
      LessIsTotal(a[1..], b[1..]);
      assert a == [a[0]] + a[1..] && b == [b[0]] + b[1..];
    }
  }

  lemma {:induction false} LessIsTransitive(a: string, b: string, c: string)
    requires Less(a, b) && Less(b, c)
    ensures Less(a, c)
  {
    if a != "" && a[0] == b[0] == c[0] {
      LessIsTransitive(a[1..], b[1..], c[1..]);
    }
  }

  function Insert(e: Entry, sorted: seq<Entry>): seq<Entry> {
    if sorted == [] then [e]
    else if Less(e.key, sorted[0].key) then [e] + sorted
    else [sorted[0]] + Insert(e, sorted[1..])
  }

  function Sort(entries: seq<Entry>): seq<Entry> {
    if entries == [] then [] else Insert(entries[0], Sort(entries[1..]))
  }

  /** The signed text. */
  function Payload(url: string, sorted: seq<Entry>): string {
    if sorted == [] then url
    else Payload(url, sorted[..|sorted| - 1]) + sorted[|sorted| - 1].key + sorted[|sorted| - 1].value
  }

  function CanonicalPayload(url: string, entries: seq<Entry>): string {
    Payload(url, Sort(entries))
  }

  ghost predicate DistinctKeys(entries: multiset<Entry>) {
    forall a, b :: a in entries && b in entries && a.key == b.key ==> a == b && entries[a] == 1
  }

  /** Every entry's key comes before all later ones. */
  ghost predicate Ascending(entries: seq<Entry>) {
    entries != [] ==>
      (forall k :: 0 < k < |entries| ==> Less(entries[0].key, entries[k].key)) && Ascending(entries[1..])
  }

  lemma {:induction false} InsertSorts(e: Entry, sorted: seq<Entry>)
    requires Ascending(sorted) && forall k :: 0 <= k < |sorted| ==> sorted[k].key != e.key
    ensures Ascending(Insert(e, sorted)) && multiset(Insert(e, sorted)) == multiset(sorted) + multiset{e}
  {
    if sorted == [] {
    } else if Less(e.key, sorted[0].key) {
      assert ([e] + sorted)[1..] == sorted;
      forall k | 0 < k < |[e] + sorted| ensures Less(e.key, ([e] + sorted)[k].key) {
        if k > 1 {
          LessIsTransitive(e.key, sorted[0].key, sorted[k - 1].key);
        }
      }
    } else {
      LessIsTotal(e.key, sorted[0].key);
      var rest := Insert(e, sorted[1..]);
      InsertSorts(e, sorted[1..]);
      assert sorted == [sorted[0]] + sorted[1..];
      assert ([sorted[0]] + rest)[1..] == rest;
      forall k | 0 <= k < |rest| ensures Less(sorted[0].key, rest[k].key) {
        assert rest[k] in multiset(rest);
        assert rest[k] == e || rest[k] in sorted[1..];
      }
    }
  }

  lemma {:induction false} SortSorts(entries: seq<Entry>)
    requires DistinctKeys(multiset(entries))
    ensures Ascending(Sort(entries)) && multiset(Sort(entries)) == multiset(entries)
  {
    if entries != [] {
      var first, rest := entries[0], entries[1..];
      assert entries == [first] + rest;
      assert multiset(entries) == multiset{first} + multiset(rest);
      SortSorts(rest);
      forall k | 0 <= k < |Sort(rest)| ensures Sort(rest)[k].key != first.key {
        assert Sort(rest)[k] in multiset(Sort(rest));
        assert Sort(rest)[k] in multiset(rest);
      }
      InsertSorts(first, Sort(rest));
    }
  }

  lemma AscendingMinimum(entries: seq<Entry>, e: Entry)
    requires Ascending(entries) && e in entries
    ensures e == entries[0] || Less(entries[0].key, e.key)
  {
  }

  lemma SameFirst(a: seq<Entry>, b: seq<Entry>)
    requires Ascending(a) && Ascending(b) && a != [] && b != [] && a[0] in b && b[0] in a
    ensures a[0] == b[0]
  {
    AscendingMinimum(a, b[0]);
    AscendingMinimum(b, a[0]);
    hide Ascending;
    if a[0] != b[0] {
      LessIsTransitive(a[0].key, b[0].key, a[0].key);
      LessIsStrict(a[0].key);
    }
  }

  lemma RestOf(a: seq<Entry>)
    requires a != []
    ensures multiset(a[1..]) == multiset(a) - multiset{a[0]}
  {
    assert a == [a[0]] + a[1..];
  }

  /** Ascending lists with the same entries are the same list. */
  lemma {:induction false} AscendingIsUnique(a: seq<Entry>, b: seq<Entry>)
    requires Ascending(a) && Ascending(b) && multiset(a) == multiset(b)
    ensures a == b
  {
    assert |multiset(a)| == |a| && |multiset(b)| == |b|;
    if a != [] {
      assert a[0] in multiset(b) && b[0] in multiset(a);
      SameFirst(a, b);
      RestOf(a);
      RestOf(b);
      AscendingIsUnique(a[1..], b[1..]);
      assert a == [a[0]] + a[1..] && b == [b[0]] + b[1..];
    }
  }

  /** The same parameters, listed in any order, are signed as the same text. */
  lemma PayloadIgnoresOrder(url: string, p: seq<Entry>, q: seq<Entry>)
    requires multiset(p) == multiset(q) && DistinctKeys(multiset(p))
    ensures CanonicalPayload(url, p) == CanonicalPayload(url, q)
  {
    SortSorts(p);
    SortSorts(q);
    AscendingIsUnique(Sort(p), Sort(q));
  }
}
