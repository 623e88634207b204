/** Untrusted JSON from the local model, and the merge of its entries by finding index. */
module ModelResponse {
  import opened Wrappers
  import opened Sequences
  import Text

  datatype Json =
    | JNull
    | JBool(value: bool)
    | JInt(number: int)
    | JReal(float: real)
    | JString(text: string)
    | JList(items: seq<Json>)
    | JObject(fields: map<string, Json>)

  /** What a call of the model that the engines handle gives: an OllamaClientError, or a decoded JSON value. */
  datatype Outcome = ClientError(message: string) | Response(body: Json)

  /** A call of the model: handled, or ending in an error that no engine and no handler catches. */
  datatype CallResult = Answered(outcome: Outcome) | CallRaised

  /** The response, if it is a JSON object. */
  function Raw(outcome: Outcome): Option<Json> {
    if outcome.Response? && outcome.body.JObject? then Some(outcome.body) else None
  }

  /** dict.get(key), a missing key reading as null. */
  function Get(j: Json, key: string): Json {
    if j.JObject? && key in j.fields then j.fields[key] else JNull
  }

  /** The list under a key; no entries unless it is a list. */
  function Entries(raw: Option<Json>, key: string): seq<Json> {
    if raw.Some? && Get(raw.value, key).JList? then Get(raw.value, key).items else []
  }

  /** isinstance(idx, int): booleans are integers. */
  function AsIndex(j: Json): Option<int> {
    match j
    case JInt(n) => Some(n)
    case JBool(b) => Some(if b then 1 else 0)
    case _ => None
  }

  /** Reads an entry's index and text, if the merge can use the entry. */
  type Reader = Json -> Option<(int, string)>

  /** A usable entry has an index in range and a non-blank text that is accepted; its text is taken stripped. */
  function ReadEntry(item: Json, field: string, count: nat, accept: string -> bool): Option<(int, string)> {
    var index, text := AsIndex(Get(item, "finding_index")), Get(item, field);
    if index.None? || !text.JString? then None
    else
      var stripped := Text.Strip(text.text);
      if stripped == "" || !(0 <= index.value < count) || !accept(stripped) then None
      else Some((index.value, stripped))
  }

  function EntryReader(field: string, count: nat, accept: string -> bool): Reader {
    (item: Json) => ReadEntry(item, field, count, accept)
  }

  function AnyText(text: string): bool {
    true
  }

  function CarriesIndex(read: Reader, i: int): Json -> bool {
    (item: Json) => read(item).Some? && read(item).value.0 == i
  }

  /** The text of the earliest usable entry for finding i. */
  function Earliest(items: seq<Json>, read: Reader, i: int): Option<string> {
    var carriers := Filter(CarriesIndex(read, i), items);
    if carriers == [] then None
    else
      FilterMembers(CarriesIndex(read, i), items, carriers[0]);
      Some(read(carriers[0]).value.1)
  }

  lemma EarliestOfNone(read: Reader)
    ensures forall i :: Earliest([], read, i) == None
  {
  }

  /** One more entry matters for finding i only if it is usable, carries i, and nothing earlier did. */
  lemma EarliestStep(items: seq<Json>, k: nat, read: Reader, i: int)
    requires k < |items|
    ensures Earliest(items[..k + 1], read, i)
         == if Earliest(items[..k], read, i).Some? then Earliest(items[..k], read, i)
            else if CarriesIndex(read, i)(items[k]) then Some(read(items[k]).value.1)
            else None
  {
    assert items[..k + 1] == items[..k] + [items[k]];
    FilterAppend(CarriesIndex(read, i), items[..k], [items[k]]);
    assert Filter(CarriesIndex(read, i), [items[k]])
        == (if CarriesIndex(read, i)(items[k]) then [items[k]] else []) + Filter(CarriesIndex(read, i), []);
  }

  /** Entry p is usable for finding i and no earlier entry is. */
  ghost predicate FirstAt(items: seq<Json>, read: Reader, i: int, p: int) {
    0 <= p < |items| && CarriesIndex(read, i)(items[p])
    && forall q :: 0 <= q < p ==> !CarriesIndex(read, i)(items[q])
  }

  lemma {:induction false} NoCarriers(items: seq<Json>, read: Reader, i: int)
    requires forall q :: 0 <= q < |items| ==> !CarriesIndex(read, i)(items[q])
    ensures Filter(CarriesIndex(read, i), items) == []
  {
    if items != [] {
      NoCarriers(items[1..], read, i);
    }
  }

  lemma FirstIsEarliest(items: seq<Json>, read: Reader, i: int, p: nat)
    requires FirstAt(items, read, i, p)
    ensures Earliest(items, read, i) == Some(read(items[p]).value.1)
  {
    NoCarriers(items[..p], read, i);
    FilterAppend(CarriesIndex(read, i), items[..p], items[p..]);
    assert items == items[..p] + items[p..];
    assert items[p..][0] == items[p];
  }

  /** Earliest really is the first usable occurrence. */
  lemma EarliestIsFirst(items: seq<Json>, read: Reader, i: int, text: string)
    ensures Earliest(items, read, i) == Some(text)
       <==> exists p :: FirstAt(items, read, i, p) && read(items[p]).value.1 == text
  {
    if p :| FirstAt(items, read, i, p) && read(items[p]).value.1 == text {
      FirstIsEarliest(items, read, i, p);
    }
    if Earliest(items, read, i) == Some(text) {
      var p := 0;
      while p < |items| && !CarriesIndex(read, i)(items[p])
        invariant 0 <= p <= |items|
        invariant forall q :: 0 <= q < p ==> !CarriesIndex(read, i)(items[q])
      {
        p := p + 1;
      }
      if p == |items| {
        NoCarriers(items, read, i);
      }
      assert FirstAt(items, read, i, p);
      FirstIsEarliest(items, read, i, p);
    }
  }

  /** Some entry is usable for i exactly when there is an earliest one. */
  lemma EarliestExists(items: seq<Json>, read: Reader, i: int)
    ensures Earliest(items, read, i).Some? <==> exists item :: item in items && CarriesIndex(read, i)(item)
  {
    var carriers := Filter(CarriesIndex(read, i), items);
    if carriers != [] {
      FilterMembers(CarriesIndex(read, i), items, carriers[0]);
    }
    if item :| item in items && CarriesIndex(read, i)(item) {
      FilterMembers(CarriesIndex(read, i), items, item);
    }
  }

  /** What comes out was read from one of the entries. */
  lemma EarliestIsRead(items: seq<Json>, read: Reader, i: int)
    requires Earliest(items, read, i).Some?
    ensures exists item :: item in items && read(item) == Some((i, Earliest(items, read, i).value))
  {
    var carriers := Filter(CarriesIndex(read, i), items);
    FilterMembers(CarriesIndex(read, i), items, carriers[0]);
    assert read(carriers[0]) == Some((i, Earliest(items, read, i).value));
  }

  /** What comes out is non-empty, stripped, in range and accepted. */
  lemma EarliestIsSound(items: seq<Json>, field: string, count: nat, accept: string -> bool, i: int)
    requires Earliest(items, EntryReader(field, count, accept), i).Some?
    ensures var text := Earliest(items, EntryReader(field, count, accept), i).value;
      text != "" && Text.Strip(text) == text && 0 <= i < count && accept(text)
  {
    hide Earliest;
    var read := EntryReader(field, count, accept);
    EarliestIsRead(items, read, i);
    var item :| item in items && read(item) == Some((i, Earliest(items, read, i).value));
    Text.StripIsClean(Text.IsSpace, Get(item, field).text);
  }

  // ---------- Which entries matter for which finding ----------

  /** The entry names finding i, usably or not. */
  function Mentions(i: int): Json -> bool {
    (item: Json) => AsIndex(Get(item, "finding_index")) == Some(i)
  }

  /** What is merged for finding i is settled by the entries that name i. */
  lemma MentionsDecide(
    xs: seq<Json>, ys: seq<Json>, field: string, count: nat, accept: string -> bool, i: int)
    requires Filter(Mentions(i), xs) == Filter(Mentions(i), ys)
    ensures Earliest(xs, EntryReader(field, count, accept), i) == Earliest(ys, EntryReader(field, count, accept), i)
  {
    hide Filter, Text.Strip;
    var carries := CarriesIndex(EntryReader(field, count, accept), i);
    FilterNarrows(carries, Mentions(i), xs);
    FilterNarrows(carries, Mentions(i), ys);
  }

  /** A reader that passes over entries for other indices than these. */
  function OnlyFor(read: Reader, keep: int -> bool): Reader {
    (item: Json) => if read(item).Some? && keep(read(item).value.0) then read(item) else None
  }

  lemma EarliestOnlyFor(items: seq<Json>, read: Reader, keep: int -> bool, i: int)
    ensures Earliest(items, OnlyFor(read, keep), i) == if keep(i) then Earliest(items, read, i) else None
  {
    var narrow := OnlyFor(read, keep);
    if keep(i) {
      SameCarriers(items, read, narrow, i);
    } else {
      EarliestExists(items, narrow, i);
    }
  }

  lemma {:induction false} SameCarriers(items: seq<Json>, read: Reader, other: Reader, i: int)
    requires forall item :: CarriesIndex(read, i)(item) == CarriesIndex(other, i)(item)
    requires forall item :: CarriesIndex(read, i)(item) ==> read(item) == other(item)
    ensures Earliest(items, read, i) == Earliest(items, other, i)
  {
    SameFilter(CarriesIndex(read, i), CarriesIndex(other, i), items);
    if Filter(CarriesIndex(read, i), items) != [] {
      FilterMembers(CarriesIndex(read, i), items, Filter(CarriesIndex(read, i), items)[0]);
    }
  }

  /** Nothing is merged for an index out of range. */
  lemma OutOfRange(items: seq<Json>, field: string, count: nat, accept: string -> bool, i: int)
    requires !(0 <= i < count)
    ensures Earliest(items, EntryReader(field, count, accept), i) == None
  {
    hide Earliest, Text.Strip;
    if Earliest(items, EntryReader(field, count, accept), i).Some? {
      EarliestIsSound(items, field, count, accept, i);
    }
  }

  /** The response with other entries under a key. */
  function WithEntries(response: Json, key: string, items: seq<Json>): Json
    requires response.JObject?
  {
    JObject(response.fields[key := JList(items)])
  }

  // ---------- Order, junk and duplicates ----------

  /** Usable entries for one index all say the same. */
  ghost predicate Agreeing(items: seq<Json>, read: Reader) {
    forall a, b ::
      (a in items && b in items && read(a).Some? && read(b).Some?
       && read(a).value.0 == read(b).value.0) ==>
        read(a).value.1 == read(b).value.1
  }

  /** Usable entries all carry different indices. */
  ghost predicate DistinctIndices(items: seq<Json>, read: Reader) {
    forall p, q :: 0 <= p < q < |items| && read(items[p]).Some? && read(items[q]).Some? ==>
      read(items[p]).value.0 != read(items[q]).value.0
  }

  ghost predicate SameEntries(xs: seq<Json>, ys: seq<Json>) {
    forall item :: item in xs <==> item in ys
  }

  ghost predicate SameMerge(xs: seq<Json>, ys: seq<Json>, read: Reader) {
    forall i :: Earliest(xs, read, i) == Earliest(ys, read, i)
  }

  lemma DistinctIndicesAgree(items: seq<Json>, read: Reader)
    requires DistinctIndices(items, read)
    ensures Agreeing(items, read)
  {
  }

  /** Agreeing entries merge alike in any order and any multiplicity. */
  lemma AgreeingMerge(xs: seq<Json>, ys: seq<Json>, read: Reader)
    requires Agreeing(xs, read) && SameEntries(xs, ys)
    ensures SameMerge(xs, ys, read)
  {
    forall i ensures Earliest(xs, read, i) == Earliest(ys, read, i) {
      EarliestExists(xs, read, i);
      EarliestExists(ys, read, i);
      if Earliest(xs, read, i).Some? {
        var a := Filter(CarriesIndex(read, i), xs)[0];
        var b := Filter(CarriesIndex(read, i), ys)[0];
        FilterMembers(CarriesIndex(read, i), xs, a);
        FilterMembers(CarriesIndex(read, i), ys, b);
      }
    }
  }

  /** Putting an entry first makes its text win. */
  lemma FirstEntryWins(item: Json, rest: seq<Json>, read: Reader)
    requires read(item).Some?
    ensures Earliest([item] + rest, read, read(item).value.0) == Some(read(item).value.1)
  {
    var i := read(item).value.0;
    assert ([item] + rest)[0] == item && CarriesIndex(read, i)(item);
  }

  lemma MovedToFront(items: seq<Json>, k: nat)
    requires k < |items|
    ensures multiset([items[k]] + (items[..k] + items[k + 1..])) == multiset(items)
  {
    assert items == items[..k] + ([items[k]] + items[k + 1..]);
  }

  /** The merge ignores the order of the entries exactly when usable entries never disagree about an index. */
  lemma OrderIrrelevantExactly(items: seq<Json>, read: Reader)
    ensures (forall ys :: multiset(ys) == multiset(items) ==> SameMerge(items, ys, read)) <==> Agreeing(items, read)
  {
    if Agreeing(items, read) {
      forall ys | multiset(ys) == multiset(items) ensures SameMerge(items, ys, read) {
        forall item ensures item in items <==> item in ys {
          SameMembers(items, ys, item);
        }
        AgreeingMerge(items, ys, read);
      }
    }
    if forall ys :: multiset(ys) == multiset(items) ==> SameMerge(items, ys, read) {
      forall a, b | a in items && b in items && read(a).Some? && read(b).Some?
        && read(a).value.0 == read(b).value.0
        ensures read(a).value.1 == read(b).value.1
      {
        TextHeldByAll(items, read, a);
        TextHeldByAll(items, read, b);
      }
    }
  }

  lemma TextHeldByAll(items: seq<Json>, read: Reader, a: Json)
    requires forall ys :: multiset(ys) == multiset(items) ==> SameMerge(items, ys, read)
    requires a in items && read(a).Some?
    ensures Earliest(items, read, read(a).value.0) == Some(read(a).value.1)
  {
    hide Earliest;
    var k :| 0 <= k < |items| && items[k] == a;
    var rest := items[..k] + items[k + 1..];
    MovedToFront(items, k);
    assert SameMerge(items, [a] + rest, read);
    FirstEntryWins(a, rest, read);
  }

  function IsUsable(read: Reader): Json -> bool {
    (item: Json) => read(item).Some?
  }

  /** The merge is a function of the usable entries alone. */
  lemma OnlyUsableMatters(xs: seq<Json>, ys: seq<Json>, read: Reader)
    requires Filter(IsUsable(read), xs) == Filter(IsUsable(read), ys)
    ensures SameMerge(xs, ys, read)
  {
    forall i ensures Earliest(xs, read, i) == Earliest(ys, read, i) {
      FilterNarrows(CarriesIndex(read, i), IsUsable(read), xs);
      FilterNarrows(CarriesIndex(read, i), IsUsable(read), ys);
    }
  }

  lemma {:induction false} JunkFiltersOut(junk: seq<Json>, read: Reader)
    requires forall item :: item in junk ==> read(item).None?
    ensures Filter(IsUsable(read), junk) == []
  {
    if junk != [] {
      JunkFiltersOut(junk[1..], read);
    }
  }

  /** Unusable entries may be inserted anywhere, in any number. */
  lemma JunkIgnored(before: seq<Json>, junk: seq<Json>, after: seq<Json>, read: Reader)
    requires forall item :: item in junk ==> read(item).None?
    ensures SameMerge(before + junk + after, before + after, read)
  {
    var usable := IsUsable(read);
    FilterAppend(usable, before, junk);
    FilterAppend(usable, before + junk, after);
    FilterAppend(usable, before, after);
    JunkFiltersOut(junk, read);
    assert Filter(usable, before) + [] == Filter(usable, before);
    OnlyUsableMatters(before + junk + after, before + after, read);
  }
}
