/**
 * The shared helper functions: one-time codes, the two string clean-ups,
 * the array shuffle, and the view of a receipt joined with its plan's details.
 */
module Helpers {
  import opened Common
  import opened Plans
  import opened Db

  // ---------------------------------------------------------------------------
  // generateOTP
  // ---------------------------------------------------------------------------

  const Digits := "0123456789"

  /**
   * `generateOTP(length)`: `length` characters, each drawn from the ten
   * digits. The random index is a free choice. A length below 1 runs the loop
   * zero times and gives the empty string.
   */
  method GenerateOtp(length: int) returns (otp: string)
    ensures |otp| == if length > 0 then length else 0
    ensures forall i :: 0 <= i < |otp| ==> otp[i] in Digits
  {
    otp := "";
    var i := 0;
    while i < length
      invariant 0 <= i <= (if length > 0 then length else 0)
      invariant |otp| == i
      invariant forall k :: 0 <= k < |otp| ==> otp[k] in Digits
    {
      var randomIndex :| 0 <= randomIndex < |Digits|;
      otp := otp + [Digits[randomIndex]];
      i := i + 1;
    }
  }

  // ---------------------------------------------------------------------------
  // toTitleCase
  // ---------------------------------------------------------------------------

  /**
   * `toUpperCase` on one character, for the ASCII letters: a lower-case
   * letter moves 32 code points down to its capital.
   */
  function Upper(c: char): (u: char)
    ensures 'a' <= c <= 'z' ==> 'A' <= u <= 'Z' && u as int == c as int - 32
    ensures !('a' <= c <= 'z') ==> u == c
  {
    if 'a' <= c <= 'z' then (c as int - 'a' as int + 'A' as int) as char else c
  }

  /** `str.charAt(0).toUpperCase() + str.slice(1)` */
  function ToTitleCase(s: string): (r: string)
    ensures |r| == |s|
    ensures s != [] ==> r[0] == Upper(s[0])
    ensures forall i :: 1 <= i < |s| ==> r[i] == s[i]
  {
    if s == [] then "" else [Upper(s[0])] + s[1..]
  }

  /** Title-casing an already title-cased string changes nothing. */
  lemma ToTitleCaseIdempotent(s: string)
    ensures ToTitleCase(ToTitleCase(s)) == ToTitleCase(s)
  {
    if s != [] {
      var t := ToTitleCase(s);
      assert Upper(t[0]) == t[0];
      assert ToTitleCase(t) == [t[0]] + t[1..] == t;
    }
  }

  // ---------------------------------------------------------------------------
  // removeExtraSpaces
  // ---------------------------------------------------------------------------

  /** The characters JavaScript's `\s` and `trim` treat as white space. */
  predicate IsSpace(c: char)
  {
    || c in {' ', '\t', '\n', '\r', '\U{000B}', '\U{000C}', '\U{00A0}', '\U{1680}',
             '\U{2028}', '\U{2029}', '\U{202F}', '\U{205F}', '\U{3000}', '\U{FEFF}'}
    || ('\U{2000}' <= c <= '\U{200A}')
  }

  function DropLeading(s: string): (r: string)
    ensures |r| <= |s| && r == s[|s| - |r|..]
    ensures r != [] ==> !IsSpace(r[0])
  {
    if s != [] && IsSpace(s[0]) then DropLeading(s[1..]) else s
  }

  function DropTrailing(s: string): (r: string)
    ensures |r| <= |s| && r == s[..|r|]
    ensures r != [] ==> !IsSpace(r[|r| - 1])
  {
    if s != [] && IsSpace(s[|s| - 1]) then DropTrailing(s[..|s| - 1]) else s
  }

  /** `str.trim()` */
  function Trim(s: string): string
  {
    DropTrailing(DropLeading(s))
  }

  /** `.replace(/\s+/g, ' ')`: every run of white space becomes one space. */
  function Collapse(s: string): string
  {
    if s == [] then ""
    else if IsSpace(s[0]) then " " + Collapse(DropLeading(s[1..]))
    else [s[0]] + Collapse(s[1..])
  }

  /** `str.trim().replace(/\s+/g, ' ')` */
  function RemoveExtraSpaces(s: string): string
  {
    Collapse(Trim(s))
  }

  /** No white space at either end; inside, only single plain spaces. */
  predicate Normalized(s: string)
  {
    && (s != [] ==> !IsSpace(s[0]) && !IsSpace(s[|s| - 1]))
    && SingleSpaced(s)
  }

  predicate SingleSpaced(s: string)
  {
    forall i :: 0 <= i < |s| && IsSpace(s[i]) ==> s[i] == ' ' && (i + 1 < |s| ==> !IsSpace(s[i + 1]))
  }

  /** Collapsing keeps a non-space first character. */
  lemma CollapseFirst(s: string)
    requires s != [] && !IsSpace(s[0])
    ensures Collapse(s) != [] && Collapse(s)[0] == s[0]
  {
  }

  /** Collapsing leaves only single plain spaces. */
  lemma {:induction false} CollapseSingleSpaced(s: string)
    ensures SingleSpaced(Collapse(s))
    decreases |s|
  {
    if s != [] {
      if IsSpace(s[0]) {
        var rest := DropLeading(s[1..]);
        CollapseSingleSpaced(rest);
        if rest != [] {
          CollapseFirst(rest);
        }
        SingleSpacedCons(' ', Collapse(rest));
      } else {
        CollapseSingleSpaced(s[1..]);
        SingleSpacedCons(s[0], Collapse(s[1..]));
      }
    }
  }

  lemma SingleSpacedCons(c: char, t: string)
    requires SingleSpaced(t)
    requires IsSpace(c) ==> c == ' ' && (t != [] ==> !IsSpace(t[0]))
    ensures SingleSpaced([c] + t)
  {
    var r := [c] + t;
    forall i | 0 <= i < |r| && IsSpace(r[i])
      ensures r[i] == ' ' && (i + 1 < |r| ==> !IsSpace(r[i + 1]))
    {
      if i > 0 {
        assert r[i] == t[i - 1];
        if i + 1 < |r| {
          assert r[i + 1] == t[i];
        }
      }
    }
  }

  /** Collapsing keeps a non-space last character. */
  lemma {:induction false} CollapseLast(s: string)
    requires s != [] && !IsSpace(s[|s| - 1])
    ensures Collapse(s) != [] && Collapse(s)[|Collapse(s)| - 1] == s[|s| - 1]
    decreases |s|
  {
    if IsSpace(s[0]) {
      DropLeadingKeepsLast(s[1..]);
      CollapseLast(DropLeading(s[1..]));
    } else if |s| > 1 {
      assert s[1..][|s[1..]| - 1] == s[|s| - 1];
      CollapseLast(s[1..]);
    }
  }

  lemma {:induction false} DropLeadingKeepsLast(s: string)
    requires s != [] && !IsSpace(s[|s| - 1])
    ensures DropLeading(s) != [] && DropLeading(s)[|DropLeading(s)| - 1] == s[|s| - 1]
    decreases |s|
  {
    if IsSpace(s[0]) {
      DropLeadingKeepsLast(s[1..]);
    }
  }

  /** Collapsing a string that is already single-spaced changes nothing. */
  lemma {:induction false} CollapseFixes(s: string)
    requires SingleSpaced(s)
    ensures Collapse(s) == s
    decreases |s|
  {
    if s != [] {
      SingleSpacedTail(s);
      CollapseFixes(s[1..]);
      if IsSpace(s[0]) {
        assert DropLeading(s[1..]) == s[1..];
      }
    }
  }

  lemma SingleSpacedTail(s: string)
    requires s != [] && SingleSpaced(s)
    ensures SingleSpaced(s[1..])
  {
    forall i | 0 <= i < |s[1..]| && IsSpace(s[1..][i])
      ensures s[1..][i] == ' ' && (i + 1 < |s[1..]| ==> !IsSpace(s[1..][i + 1]))
    {
      assert s[1..][i] == s[i + 1];
      if i + 1 < |s[1..]| {
        assert s[1..][i + 1] == s[i + 2];
      }
    }
  }

  /**
   * `removeExtraSpaces` leaves no white space at the ends, only single plain
   * spaces inside, and applying it again changes nothing.
   */
  lemma RemoveExtraSpacesNormalizes(s: string)
    ensures Normalized(RemoveExtraSpaces(s))
    ensures RemoveExtraSpaces(RemoveExtraSpaces(s)) == RemoveExtraSpaces(s)
  {
    var t := Trim(s);
    var l := DropLeading(s);
    if t != [] {
      assert t == l[..|t|] && t[0] == l[0];
    }
    CollapseSingleSpaced(t);
    if t != [] {
      CollapseFirst(t);
      CollapseLast(t);
    }
    var r := RemoveExtraSpaces(s);
    assert DropLeading(r) == r;
    assert DropTrailing(r) == r;
    CollapseFixes(r);
  }

  /** The characters of a string other than white space, in order. */
  function NonSpaces(s: string): string
  {
    if s == [] then "" else (if IsSpace(s[0]) then "" else [s[0]]) + NonSpaces(s[1..])
  }

  lemma {:induction false} NonSpacesAppend(a: string, b: string)
    ensures NonSpaces(a + b) == NonSpaces(a) + NonSpaces(b)
    decreases |a|
  {
    if a == [] {
      assert a + b == b;
    } else {
      assert (a + b)[0] == a[0];
      assert (a + b)[1..] == a[1..] + b;
      NonSpacesAppend(a[1..], b);
    }
  }

  lemma {:induction false} DropLeadingKeepsText(s: string)
    ensures NonSpaces(DropLeading(s)) == NonSpaces(s)
    decreases |s|
  {
    if s != [] && IsSpace(s[0]) {
      DropLeadingKeepsText(s[1..]);
    }
  }

  lemma {:induction false} DropTrailingKeepsText(s: string)
    ensures NonSpaces(DropTrailing(s)) == NonSpaces(s)
    decreases |s|
  {
    if s != [] && IsSpace(s[|s| - 1]) {
      var init := s[..|s| - 1];
      DropTrailingKeepsText(init);
      assert s == init + [s[|s| - 1]];
      NonSpacesAppend(init, [s[|s| - 1]]);
      assert NonSpaces([s[|s| - 1]]) == "";
    }
  }

  lemma {:induction false} CollapseKeepsText(s: string)
    ensures NonSpaces(Collapse(s)) == NonSpaces(s)
    decreases |s|
  {
    if s != [] {
      if IsSpace(s[0]) {
        var rest := DropLeading(s[1..]);
        CollapseKeepsText(rest);
        DropLeadingKeepsText(s[1..]);
        NonSpacesAppend(" ", Collapse(rest));
      } else {
        CollapseKeepsText(s[1..]);
        NonSpacesAppend([s[0]], Collapse(s[1..]));
      }
    }
  }

  /** `removeExtraSpaces` drops, adds and reorders no character other than white space. */
  lemma RemoveExtraSpacesKeepsText(s: string)
    ensures NonSpaces(RemoveExtraSpaces(s)) == NonSpaces(s)
  {
    DropLeadingKeepsText(s);
    DropTrailingKeepsText(DropLeading(s));
    CollapseKeepsText(Trim(s));
  }

  // ---------------------------------------------------------------------------
  // shuffleArray
  // ---------------------------------------------------------------------------

  /**
   * `shuffleArray`: a copy of the array, shuffled by swapping each position
   * from the last down to the second with a freely chosen position at or
   * before it. The input array is not touched.
   */
  method ShuffleArray<T>(arr: array<T>) returns (newArr: array<T>)
    ensures fresh(newArr)
    ensures newArr.Length == arr.Length
    ensures multiset(newArr[..]) == multiset(arr[..])
  {
    newArr := new T[arr.Length](k requires 0 <= k < arr.Length reads arr => arr[k]);
    assert newArr[..] == arr[..];
    var i := newArr.Length - 1;
    while i > 0
      invariant i < newArr.Length
      invariant multiset(newArr[..]) == multiset(arr[..])
    {
      var j :| 0 <= j <= i;
      newArr[i], newArr[j] := newArr[j], newArr[i];
      i := i - 1;
    }
  }

  // ---------------------------------------------------------------------------
  // getStudentActivePlan
  // ---------------------------------------------------------------------------

  /** What a caller passes to `getStudentActivePlan`. */
  datatype ReceiptRef =
    | NoInput                          // a falsy argument
    | Loaded(id: ReceiptId, receipt: Receipt) // a receipt document already in hand
    | ById(id: ReceiptId)              // a well-formed id to look up
    | Malformed                        // neither a document nor a well-formed id

  /** A receipt joined with the details of its plan (None where `planDetails` is undefined). */
  datatype ActivePlan = ActivePlan(
    id: ReceiptId,
    plan: Option<PlanInfo>,
    user: UserId,
    status: string,
    subscriptionId: string,
    customerId: string,
    priceId: string,
    trailsEndAt: Option<int>,
    endsAt: Option<int>,
    billingCycleAnchor: Option<int>,
    currentPeriodStart: Option<int>,
    currentPeriodEnd: Option<int>)

  function ActivePlanOf(env: PriceIds, id: ReceiptId, r: Receipt): ActivePlan
  {
    ActivePlan(id, PlanDetails(env, r.priceId), r.user, r.status, r.subscriptionId, r.customerId, r.priceId,
               r.trailsEndAt, r.endsAt, r.billingCycleAnchor, r.currentPeriodStart, r.currentPeriodEnd)
  }

  /**
   * `getStudentActivePlan`: validate the argument, look the receipt up when
   * given an id, and join it with its plan's details. Validation errors are
   * rethrown with a prefix; an id with no receipt gives null.
   */
  function GetStudentActivePlan(env: PriceIds, receipts: map<ReceiptId, Receipt>, input: ReceiptRef): (r: Remote<Option<ActivePlan>>)
    ensures input.NoInput? ==> r == Threw("Error", "Failed to retrieve active plan: Subscription input is required")
    ensures input.Malformed? ==> r == Threw("Error", "Failed to retrieve active plan: Invalid subscription input")
    ensures r.Returned? && r.value.None? <==> input.ById? && input.id !in receipts
    ensures r.Returned? && r.value.Some? ==>
              var receipt := if input.Loaded? then input.receipt else receipts[input.id];
              && (input.Loaded? || input.ById?) && r.value.value.id == input.id
              && r.value.value.status == receipt.status && r.value.value.priceId == receipt.priceId
              && r.value.value.user == receipt.user && r.value.value.customerId == receipt.customerId
              && r.value.value.subscriptionId == receipt.subscriptionId
              && r.value.value.plan == PlanDetails(env, receipt.priceId)
              && r.value.value.trailsEndAt == receipt.trailsEndAt && r.value.value.endsAt == receipt.endsAt
              && r.value.value.billingCycleAnchor == receipt.billingCycleAnchor
              && r.value.value.currentPeriodStart == receipt.currentPeriodStart
              && r.value.value.currentPeriodEnd == receipt.currentPeriodEnd
    ensures input.Loaded? ==> r == Returned(Some(ActivePlanOf(env, input.id, input.receipt)))
    ensures input.ById? && input.id in receipts ==> r == Returned(Some(ActivePlanOf(env, input.id, receipts[input.id])))
  {
    match input
    case NoInput => Threw("Error", "Failed to retrieve active plan: Subscription input is required")
    case Malformed => Threw("Error", "Failed to retrieve active plan: Invalid subscription input")
    case Loaded(id, receipt) => Returned(Some(ActivePlanOf(env, id, receipt)))
    case ById(id) => if id in receipts then Returned(Some(ActivePlanOf(env, id, receipts[id]))) else Returned(None)
  }

  /**
   * On a deployment with four different price ids, the course limit the
   * active-plan view advertises for a receipt of plan `p` is the grant the
   * subscription handlers give for `p`.
   */
  lemma ActivePlanAdvertisesGrant(env: PriceIds, receipts: map<ReceiptId, Receipt>, id: ReceiptId, p: PlanName)
    requires Distinct(env) && id in receipts && receipts[id].priceId == PriceId(env, p)
    ensures GetStudentActivePlan(env, receipts, ById(id)) == Returned(Some(ActivePlanOf(env, id, receipts[id])))
    ensures ActivePlanOf(env, id, receipts[id]).plan.Some?
    ensures ActivePlanOf(env, id, receipts[id]).plan.value.courseLimit == Grant(p)
    ensures ActivePlanOf(env, id, receipts[id]).plan.value.name == Name(p)
  {
  }
}
