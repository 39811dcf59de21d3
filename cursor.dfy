/**
 * Cursor pagination over the billing provider's list endpoints: request a
 * page, and while the provider says there is more, request the next page
 * starting after the id of the last item received.
 *
 * The provider's answers are a parameter: `answers[k]` is what the k-th
 * request returned, or the error it threw.
 */
module Cursor {
  import opened Common

  datatype Page<T> = Page(data: seq<T>, hasMore: bool)

  /** The message of the error thrown by reading `.id` of the missing last item of an empty page. */
  const ReadIdOfUndefined := "Cannot read properties of undefined (reading 'id')"

  /** After this answer no further request is sent: it threw, or it says there is nothing more. */
  predicate Stops<T>(answer: Remote<Page<T>>)
  {
    answer.Threw? || !answer.value.hasMore
  }

  /** Some answer stops the loop. */
  predicate Terminates<T>(answers: seq<Remote<Page<T>>>)
  {
    exists k :: 0 <= k < |answers| && Stops(answers[k])
  }

  /** The index of the first answer that stops the loop; every answer before it is a page that says there is more. */
  function FinalIndex<T>(answers: seq<Remote<Page<T>>>): (n: nat)
    requires Terminates(answers)
    ensures n < |answers| && Stops(answers[n])
    ensures forall k :: 0 <= k < n ==> answers[k].Returned? && answers[k].value.hasMore
  {
    if Stops(answers[0]) then 0
    else
      assert Terminates(answers[1..]) by {
        var k :| 0 <= k < |answers| && Stops(answers[k]);
        assert answers[1..][k - 1] == answers[k];
      }
      1 + FinalIndex(answers[1..])
  }

  /** Every page that says there is more, before the final answer, holds an item. */
  predicate NoEmptyBefore<T>(answers: seq<Remote<Page<T>>>)
    requires Terminates(answers)
  {
    forall k :: 0 <= k < FinalIndex(answers) ==> answers[k].value.data != []
  }

  /** The items of the pages returned, in order. */
  function Flatten<T>(answers: seq<Remote<Page<T>>>): seq<T>
  {
    if answers == [] then []
    else
      var last := answers[|answers| - 1];
      Flatten(answers[..|answers| - 1]) + (if last.Returned? then last.value.data else [])
  }

  /** The cursor sent with request `k`: none for the first, then the id of the last item of the page before. */
  function CursorFor<T>(answers: seq<Remote<Page<T>>>, idOf: T -> string, k: nat): Option<string>
    requires k < |answers| && (k > 0 ==> answers[k - 1].Returned? && answers[k - 1].value.data != [])
  {
    if k == 0 then None else Some(idOf(answers[k - 1].value.data[|answers[k - 1].value.data| - 1]))
  }

  /**
   * The loop of `getStats` and `fetchAllSubscriptions`. It asks for pages
   * until one says there is nothing more, and returns their items together
   * with the cursor sent with each request. A request that throws ends the
   * loop with its error; so does a page that says there is more but is
   * empty, since the loop reads the id of its missing last item.
   */
  method CollectPages<T>(answers: seq<Remote<Page<T>>>, idOf: T -> string) returns (all: Remote<seq<T>>, cursors: seq<Option<string>>)
    requires Terminates(answers)
    ensures var n := FinalIndex(answers);
            all.Returned? <==> NoEmptyBefore(answers) && answers[n].Returned?
    ensures !NoEmptyBefore(answers) ==> all == Threw("TypeError", ReadIdOfUndefined)
    ensures var n := FinalIndex(answers);
            NoEmptyBefore(answers) && answers[n].Threw? ==> all == Threw(answers[n].kind, answers[n].message)
    ensures var n := FinalIndex(answers);
            && 1 <= |cursors| <= n + 1
            && (forall k :: 0 <= k < |cursors| - 1 ==> answers[k].value.data != [])
            && (forall k :: 0 <= k < |cursors| ==> cursors[k] == CursorFor(answers, idOf, k))
    ensures all.Returned? ==>
              && all.value == Flatten(answers[..FinalIndex(answers) + 1])
              && |cursors| == FinalIndex(answers) + 1
  {
    ghost var n := FinalIndex(answers);
    var i := 0;
    var acc: seq<T> := [];
    var cursor: Option<string> := None;
    var hasMore := true;
    cursors := [];
    while hasMore
      invariant 0 <= i <= n + 1
      invariant hasMore <==> i <= n
      invariant acc == Flatten(answers[..i])
      invariant forall k :: 0 <= k < i && k < n ==> answers[k].value.data != []
      invariant |cursors| == i
      invariant forall k :: 0 <= k < i ==> cursors[k] == CursorFor(answers, idOf, k)
      invariant hasMore ==> cursor == CursorFor(answers, idOf, i)
      invariant !hasMore ==> answers[n].Returned?
      decreases n + 1 - i
    {
      var answer := answers[i];
      cursors := cursors + [cursor];
      if answer.Threw? {
        return Threw(answer.kind, answer.message), cursors;
      }
      var page := answer.value;
      assert answers[..i + 1][..i] == answers[..i];
      acc := acc + page.data;
      if page.hasMore {
        if page.data == [] {
          return Threw("TypeError", ReadIdOfUndefined), cursors;
        }
        cursor := Some(idOf(page.data[|page.data| - 1]));
      } else {
        hasMore := false;
      }
      i := i + 1;
    }
    all := Returned(acc);
  }
}
