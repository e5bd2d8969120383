/**
 * The error-message normaliser that expenseManager, expenseForm and
 * monthlyBudgetForm each carry as `handleError`: it turns whatever error
 * object the platform delivered into the one string shown in a toast.
 */
module ErrorMessages {
  import opened Common

  /** One element of an array-shaped `body`; its `message` may be undefined. */
  datatype BodyItem = BodyItem(message: Option<string>)

  /** The `body` of an error: absent (or falsy), an array, or an object. */
  datatype Body =
    | NoBody
    | ItemList(items: seq<BodyItem>)
    | Record(message: Option<string>)

  datatype ErrorValue = ErrorValue(body: Body, message: Option<string>)

  const UnknownError: string := "Unknown error"
  const Separator: string := ", "

  /** `[a, b, c].join(sep)`. */
  function Join(parts: seq<string>, sep: string): string
  {
    if |parts| == 0 then ""
    else if |parts| == 1 then parts[0]
    else parts[0] + sep + Join(parts[1..], sep)
  }

  /** Where `parts[i]` starts inside `Join(parts, sep)`. */
  function JoinOffset(parts: seq<string>, sep: string, i: nat): nat
    requires i < |parts|
  {
    if i == 0 then 0 else |parts[0]| + |sep| + JoinOffset(parts[1..], sep, i - 1)
  }

  /**
   * `Join` lays the parts out in order: each part sits at its offset, and a
   * separator follows every part but the last; nothing else is added.
   */
  lemma {:induction false} JoinLaysOutParts(parts: seq<string>, sep: string, i: nat)
    requires i < |parts|
    ensures JoinOffset(parts, sep, i) + |parts[i]| <= |Join(parts, sep)|
    ensures Join(parts, sep)[JoinOffset(parts, sep, i)..JoinOffset(parts, sep, i) + |parts[i]|] == parts[i]
    ensures i + 1 < |parts| ==>
      var end := JoinOffset(parts, sep, i) + |parts[i]|;
      end + |sep| <= |Join(parts, sep)| && Join(parts, sep)[end..end + |sep|] == sep
    ensures i + 1 == |parts| ==> JoinOffset(parts, sep, i) + |parts[i]| == |Join(parts, sep)|
  {
    if |parts| == 1 {
    } else if i == 0 {
      assert Join(parts, sep) == parts[0] + sep + Join(parts[1..], sep);
    } else {
      JoinLaysOutParts(parts[1..], sep, i - 1);
      var head := parts[0] + sep;
      var rest := Join(parts[1..], sep);
      assert Join(parts, sep) == head + rest;
      assert parts[1..][i - 1] == parts[i];
      var o := JoinOffset(parts[1..], sep, i - 1);
      assert JoinOffset(parts, sep, i) == |head| + o;
      SliceAfterPrefix(head, rest, o, o + |parts[i]|);
      if i + 1 < |parts| {
        var e := o + |parts[i]|;
        SliceAfterPrefix(head, rest, e, e + |sep|);
      }
    }
  }

  lemma SliceAfterPrefix(head: string, rest: string, x: nat, y: nat)
    requires x <= y <= |rest|
    ensures (head + rest)[|head| + x..|head| + y] == rest[x..y]
  {
  }

  /** `body.map(e => e.message)`; `join` writes an undefined message as "". */
  function ItemMessages(items: seq<BodyItem>): (ms: seq<string>)
    ensures |ms| == |items|
    ensures forall i :: 0 <= i < |items| ==>
      ms[i] == (if items[i].message.Some? then items[i].message.value else "")
  {
    seq(|items|, i requires 0 <= i < |items| =>
      if items[i].message.Some? then items[i].message.value else "")
  }

  /** The first truthy candidate, or `fallback` when none is truthy. */
  function FirstTruthy(candidates: seq<Option<string>>, fallback: string): string
  {
    if candidates == [] then fallback
    else if Truthy(candidates[0]) then candidates[0].value
    else FirstTruthy(candidates[1..], fallback)
  }

  /** `body.message`, which is undefined unless `body` is an object. */
  function BodyMessage(body: Body): Option<string>
  {
    if body.Record? then body.message else None
  }

  /**
   * The toast message for an error. An array body wins and is joined with
   * ", " (an empty array gives ""); otherwise a non-empty `body.message`;
   * otherwise a non-empty `message`; otherwise "Unknown error".
   */
  function Normalize(e: ErrorValue): (m: string)
    ensures e.body.ItemList? ==> m == Join(ItemMessages(e.body.items), Separator)
    ensures e.body.ItemList? && e.body.items == [] ==> m == ""
    ensures !e.body.ItemList? ==> m != ""
    ensures !e.body.ItemList? && Truthy(BodyMessage(e.body)) ==> m == BodyMessage(e.body).value
    ensures !e.body.ItemList? && !Truthy(BodyMessage(e.body)) && Truthy(e.message) ==> m == e.message.value
    ensures !e.body.ItemList? && !Truthy(BodyMessage(e.body)) && !Truthy(e.message) ==> m == UnknownError
  {
    if e.body.ItemList? then Join(ItemMessages(e.body.items), Separator)
    else if e.body.Record? && Truthy(e.body.message) then e.body.message.value
    else if Truthy(e.message) then e.message.value
    else UnknownError
  }

  /** Outside the array case, the cascade picks the first truthy of body.message and message. */
  lemma NormalizeIsFirstTruthy(e: ErrorValue)
    requires !e.body.ItemList?
    ensures Normalize(e) == FirstTruthy([BodyMessage(e.body), e.message], UnknownError)
  {
    var candidates := [BodyMessage(e.body), e.message];
    assert candidates[1..] == [e.message];
    assert [e.message][1..] == [];
    assert FirstTruthy([e.message], UnknownError)
        == if Truthy(e.message) then e.message.value else FirstTruthy([], UnknownError);
  }
}
