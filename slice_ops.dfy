/** The list updates and thunk plumbing that client/src/redux/invoiceSlice.ts and
    client/src/redux/expenseSlice.ts share: id normalisation, unwrapping a fetched
    payload, and replacing the first record with a given id. */
module SliceOps {
  import opened Common
  import opened Folds
  import opened UiTypes

  // ---------------------------------------------------------------------------
  // What a request comes back with, and what a thunk makes of it

  /** `request` either returns the JSON body (`success`, `message`, `data`) or
      throws; the thrown error's message is carried along. An absent message is the
      empty text, as both are falsy. */
  datatype Reply<T> = Answered(success: bool, message: string, data: Option<T>) | Thrown(message: string)

  /** A settled thunk: fulfilled with a payload, or rejected with a message. */
  datatype Outcome<T> = Fulfilled(value: T) | Rejected(message: string)

  /** `message || fallback`. */
  function OrElse(message: string, fallback: string): (r: string)
    ensures message != [] ==> r == message
    ensures message == [] ==> r == fallback
  {
    if message != [] then message else fallback
  }

  /** The update thunks (`updateInvoiceAsync`, `updateInvoiceStatusAsync`,
      `updateExpenseAsync`) and `createExpense` do not look at `success`: only a
      thrown request rejects. */
  function UnCheckedOutcome<T>(reply: Reply<T>): (r: Outcome<Option<T>>)
    ensures r.Fulfilled? <==> reply.Answered?
    ensures r.Fulfilled? ==> r.value == reply.data
  {
    match reply
    case Thrown(m) => Rejected(OrElse(m, "Unknown error"))
    case Answered(_, _, data) => Fulfilled(data)
  }

  /** `deleteInvoiceAsync` and `deleteExpenseAsync` fulfil with the id they were
      given, and only on success. */
  function DeleteOutcome<T>(reply: Reply<T>, id: string): (r: Outcome<string>)
    ensures r.Fulfilled? <==> reply.Answered? && reply.success
    ensures r.Fulfilled? ==> r.value == id
    ensures reply.Answered? && !reply.success ==> r == Rejected(OrElse(reply.message, "Delete failed"))
  {
    match reply
    case Thrown(m) => Rejected(OrElse(m, "Unknown error"))
    case Answered(success, m, _) => if success then Fulfilled(id) else Rejected(OrElse(m, "Delete failed"))
  }

  // ---------------------------------------------------------------------------
  // Fetch payloads and id normalisation

  /** `response.data` of a list request: an object whose list field is an array,
      the array itself, nothing, or an object without such a field (on which the
      following `.map` throws, rejecting the thunk). */
  datatype Payload<T> = Wrapped(list: seq<T>) | Bare(list: seq<T>) | NoData | Unlisted

  /** The id every fetched record gets: its `id` if that is a string, else its `_id`
      if that is a string, else a freshly drawn random text. */
  function NormalizedId(id: JsId, mongoId: JsId, drawn: string): (r: string)
    ensures id.Str? ==> r == id.text
    ensures id.Undefined? && mongoId.Str? ==> r == mongoId.text
    ensures id.Undefined? && mongoId.Undefined? ==> r == drawn
  {
    if id.Str? then id.text else if mongoId.Str? then mongoId.text else drawn
  }

  function Normalized<T>(x: Rec<T>, drawn: string): (r: Rec<T>)
    ensures r.id.Str? && r.mongoId == x.mongoId && r.fields == x.fields
    ensures x.id.Str? ==> r == x
  {
    x.(id := Str(NormalizedId(x.id, x.mongoId, drawn)))
  }

  predicate AllStringIds<T>(s: seq<Rec<T>>) {
    forall i :: 0 <= i < |s| ==> s[i].id.Str?
  }

  /** The fetch thunks: unwrap the payload, then give every record a string id.
      `drawn(i)` stands for the random text drawn for the i-th record. */
  function Fetched<T>(p: Payload<Rec<T>>, drawn: nat -> string): (r: Outcome<seq<Rec<T>>>)
    ensures r.Rejected? <==> p.Unlisted?
    ensures r.Fulfilled? ==>
      var src := if p.NoData? then [] else p.list;
      && |r.value| == |src|
      && AllStringIds(r.value)
      && (forall i :: 0 <= i < |src| ==> r.value[i] == Normalized(src[i], drawn(i)))
  {
    match p
    case Unlisted => Rejected("data.map is not a function")
    case NoData => Fulfilled([])
    case Wrapped(list) => Fulfilled(NormalizeAll(list, drawn))
    case Bare(list) => Fulfilled(NormalizeAll(list, drawn))
  }

  function NormalizeAll<T>(s: seq<Rec<T>>, drawn: nat -> string): (r: seq<Rec<T>>)
    ensures |r| == |s| && AllStringIds(r)
    ensures forall i :: 0 <= i < |s| ==> r[i] == Normalized(s[i], drawn(i))
  {
    var r := seq(|s|, i requires 0 <= i < |s| => Normalized(s[i], drawn(i)));
    assert forall i :: 0 <= i < |r| ==> r[i] == Normalized(s[i], drawn(i)) && r[i].id.Str?;
    r
  }

  /** Normalisation keeps the fields, and keeps every id that already was a string. */
  lemma NormalizeKeepsStringIds<T>(s: seq<Rec<T>>, drawn: nat -> string)
    requires AllStringIds(s)
    ensures NormalizeAll(s, drawn) == s
  {
    var r := NormalizeAll(s, drawn);
    assert forall i :: 0 <= i < |s| ==> r[i] == s[i];
  }

  // ---------------------------------------------------------------------------
  // findIndex-then-assign

  /** `findIndex(x => x.id === payload.id)` then `list[index] = payload` unless the
      index is -1: every position keeps its record except the first one whose id
      equals the payload's, which becomes the payload. */
  function ReplaceFirst<T>(s: seq<Rec<T>>, x: Rec<T>): (r: seq<Rec<T>>)
    ensures |r| == |s|
    ensures forall j :: 0 <= j < |s| ==>
      r[j] == s[j] || (r[j] == x && s[j].id == x.id && forall i :: 0 <= i < j ==> s[i].id != x.id)
    ensures (exists j :: 0 <= j < |s| && s[j].id == x.id) ==> x in r
    ensures (forall j :: 0 <= j < |s| ==> s[j].id != x.id) ==> r == s
  {
    match IndexOf(s, IdOf, x.id)
    case None => s
    case Some(k) => s[k := x]
  }

  /** A payload whose `id` is absent matches no record once every stored id is a
      string, so the replace leaves the list as it was. */
  lemma {:induction false} ReplaceWithoutIdIsNoOp<T>(s: seq<Rec<T>>, x: Rec<T>)
    requires AllStringIds(s) && x.id.Undefined?
    ensures ReplaceFirst(s, x) == s
  {
    assert forall j :: 0 <= j < |s| ==> s[j].id != x.id by {
      forall j | 0 <= j < |s| ensures s[j].id != x.id {
        assert s[j].id.Str?;
      }
    }
  }

  /** Replacing, appending or removing never gives a record without a string id to a
      list whose ids are all strings, as long as the new record has one. */
  lemma StringIdsKept<T>(s: seq<Rec<T>>, x: Rec<T>, id: string)
    requires AllStringIds(s) && x.id.Str?
    ensures AllStringIds(ReplaceFirst(s, x))
    ensures AllStringIds(s + [x])
    ensures AllStringIds(RemoveWhere(s, IdOf, Str(id)))
  {
    var r := RemoveWhere(s, IdOf, Str(id));
    forall i | 0 <= i < |r| ensures r[i].id.Str? {
      assert r[i] in s;
    }
  }
}
