/** Dismissal of stacked popups on a document click. The stack holds the open popups,
    oldest first; a click keeps the oldest popup whose panel contains the click target,
    together with everything opened before it, and hides every popup opened after it
    (all of them when no panel contains the target). */
module Dismissal {

  /** A DOM node, known only by identity. */
  type NodeId = nat

  /** A `PopupInfo`: the context (anchor) element, the popup element, and the identity of
      the popup's `hide` callback. */
  datatype PopupInfo = PopupInfo(context: NodeId, popup: NodeId, hideId: nat)

  /** `contains(ancestor, node)`: `Node.contains`, whether `node` lies in the subtree of `ancestor`. */
  type Containment = (NodeId, NodeId) -> bool

  /** Specification: how many entries survive the click, counted from the oldest. It is
      one past the first entry whose popup contains the target, or 0 if there is none. */
  function SurvivorCount(s: seq<PopupInfo>, contains: Containment, target: NodeId): (n: nat)
    ensures n <= |s|
  {
    if s == [] then 0
    else if contains(s[0].popup, target) then 1
    else
      var m := SurvivorCount(s[1..], contains, target);
      if m == 0 then 0 else m + 1
  }

  /** SurvivorCount finds the first entry whose popup contains the target, and is 0
      exactly when no popup contains it. */
  lemma {:induction false} SurvivorCountIsFirstMatch(s: seq<PopupInfo>, contains: Containment, target: NodeId)
    ensures var n := SurvivorCount(s, contains, target);
      (n == 0 <==> forall i :: 0 <= i < |s| ==> !contains(s[i].popup, target))
      && (n > 0 ==> contains(s[n - 1].popup, target))
      && (forall j :: 0 <= j && j + 1 < n ==> !contains(s[j].popup, target))
  {
    if s != [] && !contains(s[0].popup, target) {
      SurvivorCountIsFirstMatch(s[1..], contains, target);
      var n := SurvivorCount(s, contains, target);
      forall j | 0 <= j && j + 1 < n ensures !contains(s[j].popup, target) {
        if j > 0 { assert s[j] == s[1..][j - 1]; }
      }
      forall i | 0 <= i < |s| && n == 0 ensures !contains(s[i].popup, target) {
        if i > 0 { assert s[i] == s[1..][i - 1]; }
      }
    }
  }

  /** Clicking again on the same target after a dismissal hides nothing more. */
  lemma {:induction false} DismissalIsIdempotent(s: seq<PopupInfo>, contains: Containment, target: NodeId)
    ensures var n := SurvivorCount(s, contains, target);
      SurvivorCount(s[..n], contains, target) == n
  {
    if s != [] && !contains(s[0].popup, target) {
      var m := SurvivorCount(s[1..], contains, target);
      DismissalIsIdempotent(s[1..], contains, target);
      if m > 0 {
        assert s[..m + 1][1..] == s[1..][..m];
      }
    }
  }

  /** `Array.prototype.filter` with the test `popup.contains(target)`. Its first element,
      if any, is the oldest entry whose popup contains the target. */
  function Filter(s: seq<PopupInfo>, contains: Containment, target: NodeId): (r: seq<PopupInfo>)
    ensures forall x :: x in r ==> x in s && contains(x.popup, target)
    ensures r == [] <==> SurvivorCount(s, contains, target) == 0
    ensures r != [] ==> r[0] == s[SurvivorCount(s, contains, target) - 1]
  {
    if s == [] then []
    else (if contains(s[0].popup, target) then [s[0]] else []) + Filter(s[1..], contains, target)
  }

  /** `Array.prototype.indexOf`: the first index holding `x`, or -1. */
  function IndexOf(s: seq<PopupInfo>, x: PopupInfo): (i: int)
    ensures -1 <= i < |s|
    ensures i == -1 <==> x !in s
    ensures i >= 0 ==> s[i] == x && forall j :: 0 <= j < i ==> s[j] != x
  {
    if s == [] then -1
    else if s[0] == x then 0
    else
      var k := IndexOf(s[1..], x);
      if k == -1 then -1 else k + 1
  }

  /** `indexOf(clickedPopup) + 1`, with `clickedPopup` the first filtered entry, is the
      survivor count: an equal entry earlier in the stack would have been filtered first. */
  lemma IndexOfFirstFiltered(s: seq<PopupInfo>, contains: Containment, target: NodeId)
    requires Filter(s, contains, target) != []
    ensures IndexOf(s, Filter(s, contains, target)[0]) + 1 == SurvivorCount(s, contains, target)
  {
    SurvivorCountIsFirstMatch(s, contains, target);
  }

  /** A worked case: popups A, B and C opened in that order, B from inside A's popup and
      C from inside B's; a click inside A's popup but outside B's and C's keeps A alone. */
  lemma ClickInOldestPopupExample()
    ensures var a, b, c := PopupInfo(1, 2, 0), PopupInfo(3, 4, 1), PopupInfo(5, 6, 2);
      var contains := (ancestor: NodeId, node: NodeId) => ancestor == 2 && node == 7;
      SurvivorCount([a, b, c], contains, 7) == 1
  {
  }

  /** The open-popup stack of one document, and the `hide` calls made so far. */
  class PopupStack {
    /** Open popups, oldest first. */
    var stack: seq<PopupInfo>
    /** Every `hide` invocation, in call order. */
    var hideLog: seq<PopupInfo>

    constructor (initial: seq<PopupInfo>)
      ensures stack == initial && hideLog == []
    {
      stack := initial;
      hideLog := [];
    }

    /** Invokes an entry's `hide` callback; what it does to the page is not modelled. */
    method Hide(info: PopupInfo)
      modifies this`hideLog
      ensures hideLog == old(hideLog) + [info]
    {
      hideLog := hideLog + [info];
    }

    /** dealPopupOnClick: truncates the stack just after the oldest entry whose popup
        contains the click target (or empties it), then hides the removed entries from
        oldest to newest. The stack afterwards is a prefix of the old one, and the
        newly hidden entries are exactly the rest of it, each hidden once. */
    method DealPopupOnClick(target: NodeId, contains: Containment)
      modifies this
      ensures var n := SurvivorCount(old(stack), contains, target);
        stack == old(stack)[..n] && hideLog == old(hideLog) + old(stack)[n..]
      ensures stack + hideLog[|old(hideLog)|..] == old(stack)
    {
      if |stack| == 0 {
        return;
      }
      var clickedPopups := Filter(stack, contains, target);
      var deleteFromIndex: nat;
      if clickedPopups != [] {
        IndexOfFirstFiltered(stack, contains, target);
        deleteFromIndex := IndexOf(stack, clickedPopups[0]) + 1;
      } else {
        deleteFromIndex := 0;
      }
      var popupInfosToHide := stack[deleteFromIndex..];
      stack := stack[..deleteFromIndex];
      for k := 0 to |popupInfosToHide|
        invariant stack == old(stack)[..deleteFromIndex]
        invariant hideLog == old(hideLog) + popupInfosToHide[..k]
      {
        Hide(popupInfosToHide[k]);
      }
      assert popupInfosToHide[..|popupInfosToHide|] == popupInfosToHide;
    }
  }
}
