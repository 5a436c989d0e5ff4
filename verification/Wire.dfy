/**
 Records as they cross the wire: header keys as text, header lists in key order on
 the way out (sortedHeaders, internal/subscribe/strategy/retry.go) and a key-to-value
 map on the way in (Poll, internal/subscribe/subscribedriver/consumer.go).
 */
module Wire {
  import opened Types

  datatype Header = Header(key: string, value: Bytes)

  /** One record to produce.  A `None` value is a tombstone. */
  datatype Record = Record(topic: string, key: Option<Bytes>, value: Option<Bytes>, headers: seq<Header>)

  function LibText(header: LibHeader): string {
    match header
    case RetryAttempt => "easykafka.retry.attempt"
    case RetryTime => "easykafka.retry.time"
    case RetryStep => "easykafka.retry.step"
    case ErrorCode => "easykafka.error.code"
    case ErrorMessage => "easykafka.error.message"
    case OriginalTopic => "easykafka.original.topic"
    case OriginalPartition => "easykafka.original.partition"
    case OriginalOffset => "easykafka.original.offset"
    case FailedAt => "easykafka.failed.at"
  }

  function HeaderText(key: HeaderKey): string {
    match key
    case Lib(header) => LibText(header)
    case App(name) => name
  }

  /** isRetryHeader decides which of the two a key is. */
  function KeyOf(text: string): HeaderKey {
    if text == LibText(RetryAttempt) then Lib(RetryAttempt)
    else if text == LibText(RetryTime) then Lib(RetryTime)
    else if text == LibText(RetryStep) then Lib(RetryStep)
    else if text == LibText(ErrorCode) then Lib(ErrorCode)
    else if text == LibText(ErrorMessage) then Lib(ErrorMessage)
    else if text == LibText(OriginalTopic) then Lib(OriginalTopic)
    else if text == LibText(OriginalPartition) then Lib(OriginalPartition)
    else if text == LibText(OriginalOffset) then Lib(OriginalOffset)
    else if text == LibText(FailedAt) then Lib(FailedAt)
    else App(text)
  }

  /** Every text has one key, and the nine spellings do not collide. */
  lemma KeyTextBijection(text: string, header: LibHeader)
    ensures HeaderText(KeyOf(text)) == text
    ensures KeyOf(LibText(header)) == Lib(header)
  {
    assert LibText(RetryAttempt)[10] == 'r' && LibText(ErrorMessage)[10] == 'e';
    assert LibText(RetryTime)[16] == 't' && LibText(RetryStep)[16] == 's' && LibText(ErrorCode)[16] == 'c';
  }

  /** The names on the wire, read back. */
  lemma NineNames()
    ensures KeyOf("easykafka.retry.attempt") == Lib(RetryAttempt)
    ensures KeyOf("easykafka.retry.time") == Lib(RetryTime)
    ensures KeyOf("easykafka.retry.step") == Lib(RetryStep)
    ensures KeyOf("easykafka.error.code") == Lib(ErrorCode)
    ensures KeyOf("easykafka.error.message") == Lib(ErrorMessage)
    ensures KeyOf("easykafka.original.topic") == Lib(OriginalTopic)
    ensures KeyOf("easykafka.original.partition") == Lib(OriginalPartition)
    ensures KeyOf("easykafka.original.offset") == Lib(OriginalOffset)
    ensures KeyOf("easykafka.failed.at") == Lib(FailedAt)
  {
    forall header: LibHeader
      ensures KeyOf(LibText(header)) == Lib(header)
    {
      KeyTextBijection("", header);
    }
    assert forall h: LibHeader :: KeyOf(LibText(h)) == Lib(h);
    assert KeyOf(LibText(RetryAttempt)) == Lib(RetryAttempt) && KeyOf(LibText(RetryTime)) == Lib(RetryTime);
    assert KeyOf(LibText(RetryStep)) == Lib(RetryStep) && KeyOf(LibText(ErrorCode)) == Lib(ErrorCode);
    assert KeyOf(LibText(ErrorMessage)) == Lib(ErrorMessage) && KeyOf(LibText(OriginalTopic)) == Lib(OriginalTopic);
    assert KeyOf(LibText(OriginalPartition)) == Lib(OriginalPartition) && KeyOf(LibText(OriginalOffset)) == Lib(OriginalOffset);
    assert KeyOf(LibText(FailedAt)) == Lib(FailedAt);
  }

  // --- String order, as slices.Sorted uses it

  predicate LexLess(a: string, b: string) {
    if b == [] then false
    else a == [] || a[0] < b[0] || (a[0] == b[0] && LexLess(a[1..], b[1..]))
  }

  lemma {:induction false} LexIrreflexive(a: string)
    ensures !LexLess(a, a)
  {
    if a != [] {
      LexIrreflexive(a[1..]);
    }
  }

  lemma {:induction false} LexTransitive(a: string, b: string, c: string)
    requires LexLess(a, b) && LexLess(b, c)
    ensures LexLess(a, c)
  {
    if a != [] && a[0] == b[0] == c[0] {
      LexTransitive(a[1..], b[1..], c[1..]);
    }
  }

  lemma {:induction false} LexTotal(a: string, b: string)
    ensures a == b || LexLess(a, b) || LexLess(b, a)
  {
    if a != [] && b != [] && a[0] == b[0] {
      LexTotal(a[1..], b[1..]);
      assert a == [a[0]] + a[1..] && b == [b[0]] + b[1..];
    }
  }

  /** Two texts agree up to a point where the first one ends, or has the smaller character. */
  predicate DiffersAt(a: string, b: string, k: nat) {
    && k <= |a| && k < |b| && a[..k] == b[..k]
    && (k < |a| ==> a[k] < b[k])
  }

  /** LexLess is the order of Go's strings: at the first difference, the smaller character or the end comes first. */
  lemma {:induction false} LexOrder(a: string, b: string)
    ensures LexLess(a, b) <==> exists k: nat :: DiffersAt(a, b, k)
  {
    if LexLess(a, b) {
      if a == [] || a[0] < b[0] {
        assert DiffersAt(a, b, 0);
      } else {
        LexOrder(a[1..], b[1..]);
        var k: nat :| DiffersAt(a[1..], b[1..], k);
        assert a[..k + 1] == [a[0]] + a[1..][..k] && b[..k + 1] == [b[0]] + b[1..][..k];
        assert DiffersAt(a, b, k + 1);
      }
    } else if k: nat :| DiffersAt(a, b, k) {
      assert k > 0 && a[..k][0] == b[..k][0];
      assert a[1..][..k - 1] == a[..k][1..] && b[1..][..k - 1] == b[..k][1..];
      assert DiffersAt(a[1..], b[1..], k - 1);
      LexOrder(a[1..], b[1..]);
    }
  }

  ghost predicate IsLeast(least: string, texts: set<string>) {
    least in texts && forall other :: other in texts ==> other == least || LexLess(least, other)
  }

  lemma {:induction false} LeastExists(texts: set<string>)
    requires texts != {}
    ensures exists least :: IsLeast(least, texts)
    decreases |texts|
  {
    var some :| some in texts;
    var rest := texts - {some};
    if rest == {} {
      assert texts == {some};
      assert IsLeast(some, texts);
    } else {
      LeastExists(rest);
      var least :| IsLeast(least, rest);
      LexTotal(some, least);
      var winner := if LexLess(some, least) then some else least;
      forall other | other in texts
        ensures other == winner || LexLess(winner, other)
      {
        if winner == some && other != some && other != least {
          LexTransitive(some, least, other);
        }
      }
      assert IsLeast(winner, texts);
    }
  }

  ghost predicate Ascending(texts: seq<string>) {
    forall i, j :: 0 <= i < j < |texts| ==> LexLess(texts[i], texts[j])
  }

  function Elements(texts: seq<string>): set<string> {
    set t | t in texts
  }

  /** slices.Sorted over a set of keys. */
  method SortStrings(texts: set<string>) returns (sorted: seq<string>)
    ensures Ascending(sorted) && Elements(sorted) == texts
  {
    sorted := [];
    var left := texts;
    while left != {}
      invariant left <= texts && Elements(sorted) == texts - left
      invariant Ascending(sorted)
      invariant forall t, u :: t in sorted && u in left ==> LexLess(t, u)
      decreases |left|
    {
      LeastExists(left);
      var least :| least in left && forall other :: other in left ==> other == least || LexLess(least, other);
      left := left - {least};
      assert Elements(sorted + [least]) == Elements(sorted) + {least};
      sorted := sorted + [least];
    }
  }

  /** The sorted order of a set is unique, so a record's headers come out the same every time. */
  lemma {:induction false} SortedUnique(a: seq<string>, b: seq<string>)
    requires Ascending(a) && Ascending(b) && Elements(a) == Elements(b)
    ensures a == b
    decreases |a|
  {
    if a != [] {
      assert a[0] in Elements(a);
    }
    if b != [] {
      assert b[0] in Elements(b);
    }
    if a != [] && b != [] {
      var i :| 0 <= i < |b| && b[i] == a[0];
      var j :| 0 <= j < |a| && a[j] == b[0];
      if a[0] != b[0] {
        LexTransitive(a[0], b[0], a[0]);
        LexIrreflexive(a[0]);
      }
      forall t
        ensures t in a[1..] <==> t in Elements(a) && t != a[0]
        ensures t in b[1..] <==> t in Elements(b) && t != b[0]
      {
        LexIrreflexive(t);
        if t in a && t != a[0] {
          var k :| 0 <= k < |a| && a[k] == t;
          assert a[1..][k - 1] == t;
        }
        if t in b && t != b[0] {
          var k :| 0 <= k < |b| && b[k] == t;
          assert b[1..][k - 1] == t;
        }
      }
      assert Elements(a[1..]) == Elements(b[1..]);
      SortedUnique(a[1..], b[1..]);
      assert a == [a[0]] + a[1..] && b == [b[0]] + b[1..];
    }
  }

  // --- Header lists

  /** A map is spelled properly when no application key takes one of the library's nine names. */
  predicate ProperKeys(headers: HeaderMap) {
    forall key :: key in headers ==> KeyOf(HeaderText(key)) == key
  }

  function TextMap(headers: HeaderMap): map<string, string> {
    map text | text in (set key | key in headers :: HeaderText(key)) && KeyOf(text) in headers :: headers[KeyOf(text)]
  }

  /** The header map of a polled message, from the texts on the wire. */
  function FromText(entries: map<string, string>): HeaderMap {
    map key | key in (set text | text in entries :: KeyOf(text)) && HeaderText(key) in entries :: entries[HeaderText(key)]
  }

  /** Spelling a header map out and reading it back changes nothing. */
  lemma TextRoundTrip(headers: HeaderMap)
    requires ProperKeys(headers)
    ensures FromText(TextMap(headers)) == headers
  {
    forall key | key in headers
      ensures key in FromText(TextMap(headers)) && FromText(TextMap(headers))[key] == headers[key]
    {
      assert HeaderText(key) in (set k | k in headers :: HeaderText(k));
      assert HeaderText(key) in TextMap(headers);
      assert KeyOf(HeaderText(key)) in (set text | text in TextMap(headers) :: KeyOf(text));
    }
    forall key | key in FromText(TextMap(headers))
      ensures key in headers
    {
      assert HeaderText(key) in TextMap(headers);
      var text :| text in TextMap(headers) && KeyOf(text) == key;
    }
  }

  /** Whatever Poll reads is spelled properly. */
  lemma FromTextProper(entries: map<string, string>)
    ensures ProperKeys(FromText(entries))
  {
    forall key | key in FromText(entries)
      ensures KeyOf(HeaderText(key)) == key
    {
      var text :| text in entries && KeyOf(text) == key;
      KeyTextBijection(text, RetryAttempt);
    }
  }

  function Keys(list: seq<Header>): seq<string> {
    seq(|list|, i requires 0 <= i < |list| => list[i].key)
  }

  /** The list holds each entry of the map once, in key order. */
  ghost predicate IsSortedListing(list: seq<Header>, entries: map<string, string>) {
    && Ascending(Keys(list))
    && Elements(Keys(list)) == entries.Keys
    && forall i :: 0 <= i < |list| ==> list[i].key in entries && list[i].value == entries[list[i].key]
  }

  /** sortedHeaders. */
  method SortedHeaders(headers: HeaderMap) returns (list: seq<Header>)
    ensures IsSortedListing(list, TextMap(headers))
  {
    var entries := TextMap(headers);
    var sorted := SortStrings(entries.Keys);
    list := [];
    for i := 0 to |sorted|
      invariant Keys(list) == sorted[..i]
      invariant forall j :: 0 <= j < i ==> list[j].key in entries && list[j].value == entries[list[j].key]
    {
      assert sorted[i] in Elements(sorted);
      list := list + [Header(sorted[i], entries[sorted[i]])];
    }
    assert sorted[..|sorted|] == sorted;
  }

  /** The header loop of Poll: a later value of the same key replaces an earlier one. */
  function FromWire(list: seq<Header>): map<string, string> {
    if list == [] then map[]
    else FromWire(list[..|list| - 1])[list[|list| - 1].key := list[|list| - 1].value]
  }

  method ConvertHeaders(list: seq<Header>) returns (headers: map<string, string>)
    ensures headers == FromWire(list)
  {
    headers := map[];
    for i := 0 to |list|
      invariant headers == FromWire(list[..i])
    {
      headers := headers[list[i].key := list[i].value];
      assert list[..i + 1][..i] == list[..i];
    }
    assert list[..|list|] == list;
  }

  /** Of several headers with one key the last one counts, and no other key appears. */
  lemma {:induction false} LastValueWins(list: seq<Header>, i: nat)
    requires i < |list| && forall k :: i < k < |list| ==> list[k].key != list[i].key
    ensures list[i].key in FromWire(list) && FromWire(list)[list[i].key] == list[i].value
    ensures forall key :: key in FromWire(list) ==> key in Keys(list)
  {
    var n := |list| - 1;
    if i < n {
      LastValueWins(list[..n], i);
    }
    OnlyListed(list);
  }

  lemma {:induction false} OnlyListed(list: seq<Header>)
    ensures forall key :: key in FromWire(list) ==> key in Keys(list)
  {
    if list != [] {
      var n := |list| - 1;
      OnlyListed(list[..n]);
      assert Keys(list) == Keys(list[..n]) + [list[n].key];
    }
  }

  ghost predicate DistinctKeys(list: seq<Header>) {
    forall i, j :: 0 <= i < j < |list| ==> list[i].key != list[j].key
  }

  lemma AscendingIsDistinct(list: seq<Header>)
    requires Ascending(Keys(list))
    ensures DistinctKeys(list)
  {
    forall i, j | 0 <= i < j < |list|
      ensures list[i].key != list[j].key
    {
      assert LexLess(Keys(list)[i], Keys(list)[j]);
      LexIrreflexive(list[i].key);
    }
  }

  lemma {:induction false} FromWireEntries(list: seq<Header>)
    requires DistinctKeys(list)
    ensures forall i :: 0 <= i < |list| ==> list[i].key in FromWire(list) && FromWire(list)[list[i].key] == list[i].value
    ensures forall text :: text in FromWire(list) ==> exists i :: 0 <= i < |list| && list[i].key == text
  {
    if list != [] {
      var front := list[..|list| - 1];
      FromWireEntries(front);
      forall text | text in FromWire(front)
        ensures exists i :: 0 <= i < |list| && list[i].key == text
      {
        var i :| 0 <= i < |front| && front[i].key == text;
        assert list[i].key == text;
      }
    }
  }

  /** What is written as a sorted list is read back as the same map. */
  lemma HeaderListRoundTrip(list: seq<Header>, entries: map<string, string>)
    requires IsSortedListing(list, entries)
    ensures FromWire(list) == entries
  {
    AscendingIsDistinct(list);
    FromWireEntries(list);
    forall text | text in entries
      ensures text in FromWire(list) && FromWire(list)[text] == entries[text]
    {
      assert text in Elements(Keys(list));
      var i :| 0 <= i < |list| && Keys(list)[i] == text;
    }
  }

  /** The record's headers do not depend on the order in which the map was walked. */
  lemma SortedListingUnique(a: seq<Header>, b: seq<Header>, entries: map<string, string>)
    requires IsSortedListing(a, entries) && IsSortedListing(b, entries)
    ensures a == b
  {
    SortedUnique(Keys(a), Keys(b));
    forall i | 0 <= i < |a|
      ensures a[i] == b[i]
    {
      assert Keys(a)[i] == Keys(b)[i];
    }
  }
}
