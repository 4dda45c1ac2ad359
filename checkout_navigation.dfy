/**
 * The checkout web view's callback URLs and its navigation decision
 * (StripeSupabasePayment/Views/CheckoutView.swift). Stripe's hosted checkout
 * page redirects to one of two URLs under a fixed scheme; the view refuses
 * every navigation under that scheme and reports which of the two it saw.
 *
 * `localizedCaseInsensitiveContains` is modelled as substring search after
 * folding ASCII upper-case letters to lower case.
 */
module CheckoutNavigation {
  import opened Wrappers

  const CallbackScheme: string := "https://itsuki.enjoy.StripeSupabasePayments"
  const SuccessMarker: string := "success"
  const CancelledMarker: string := "cancelled"

  /** Where Stripe is told to send the user after paying. */
  function SuccessURL(): (u: string)
    ensures |u| == |CallbackScheme| + 1 + |SuccessMarker|
    ensures u[..|CallbackScheme|] == CallbackScheme
    ensures u[|CallbackScheme|] == '?'
    ensures u[|CallbackScheme| + 1..] == SuccessMarker
  {
    CallbackScheme + "?" + SuccessMarker
  }

  /** Where Stripe is told to send the user after backing out. */
  function CancelledURL(): (u: string)
    ensures |u| == |CallbackScheme| + 1 + |CancelledMarker|
    ensures u[..|CallbackScheme|] == CallbackScheme
    ensures u[|CallbackScheme|] == '?'
    ensures u[|CallbackScheme| + 1..] == CancelledMarker
  {
    CallbackScheme + "?" + CancelledMarker
  }

  // ---------------------------------------------------------------------
  // Case-insensitive substring search
  // ---------------------------------------------------------------------

  function Lower(c: char): char
  {
    if 'A' <= c <= 'Z' then (c as int - 'A' as int + 'a' as int) as char else c
  }

  /** The string with every ASCII upper-case letter in lower case, and nothing else changed. */
  function LowerAll(s: string): (r: string)
    ensures |r| == |s|
    ensures forall i :: 0 <= i < |s| ==> r[i] == Lower(s[i])
  {
    if s == [] then [] else [Lower(s[0])] + LowerAll(s[1..])
  }

  /** `t` occurs in `s` starting at position i. */
  predicate OccursAt(s: string, t: string, i: int)
  {
    0 <= i <= |s| - |t| && s[i..i + |t|] == t
  }

  /** `t` occurs in `s` at some position. */
  predicate Contains(s: string, t: string)
  {
    exists i :: 0 <= i <= |s| - |t| && OccursAt(s, t, i)
  }

  predicate ContainsIgnoringCase(s: string, t: string)
  {
    Contains(LowerAll(s), LowerAll(t))
  }

  lemma LowerAllConcat(a: string, b: string)
    ensures LowerAll(a + b) == LowerAll(a) + LowerAll(b)
  {
    var l, r := LowerAll(a + b), LowerAll(a) + LowerAll(b);
    assert |l| == |r|;
    forall i | 0 <= i < |l|
      ensures l[i] == r[i]
    {
      if i < |a| {
        assert (a + b)[i] == a[i];
      } else {
        assert (a + b)[i] == b[i - |a|];
      }
    }
  }

  /** A string occurs, whatever its case, in any string that has it as a piece. */
  lemma ContainsPiece(a: string, t: string, b: string)
    ensures ContainsIgnoringCase(a + t + b, t)
  {
    LowerAllConcat(a + t, b);
    LowerAllConcat(a, t);
    var s := LowerAll(a) + LowerAll(t) + LowerAll(b);
    assert OccursAt(s, LowerAll(t), |a|);
  }

  /** A string that lacks one of the characters of `t` does not contain `t`. */
  lemma MissingCharacter(s: string, t: string, k: int)
    requires 0 <= k < |t| && t[k] !in s
    ensures !Contains(s, t)
  {
    forall i | 0 <= i <= |s| - |t|
      ensures !OccursAt(s, t, i)
    {
      assert s[i..i + |t|][k] == s[i + k];
    }
  }

  /** Folding case cannot produce 'c' from a string without 'c' or 'C'. */
  lemma NoLowerC(s: string)
    requires 'c' !in s && 'C' !in s
    ensures 'c' !in LowerAll(s)
  {
    forall i | 0 <= i < |s|
      ensures LowerAll(s)[i] != 'c'
    {
      assert s[i] != 'c' && s[i] != 'C';
    }
  }

  lemma NoLowerL(s: string)
    requires 'l' !in s && 'L' !in s
    ensures 'l' !in LowerAll(s)
  {
    forall i | 0 <= i < |s|
      ensures LowerAll(s)[i] != 'l'
    {
      assert s[i] != 'l' && s[i] != 'L';
    }
  }

  // ---------------------------------------------------------------------
  // The decision
  // ---------------------------------------------------------------------

  datatype Policy = Allow | Cancel

  /** The navigation policy and whether `onSuccess` and `onCancel` are called. */
  datatype Decision = Decision(policy: Policy, firesSuccess: bool, firesCancel: bool)

  /**
   * `decidePolicy(for:)` on the URL of a navigation request (None when the
   * request has none): a URL under the callback scheme is cancelled, and
   * reports success and cancellation independently by the presence of each
   * marker; any other navigation is allowed and reports nothing.
   */
  function DecidePolicy(url: Option<string>): (d: Decision)
    ensures url.None? ==> d == Decision(Allow, false, false)
    ensures d.policy == Cancel <==> url.Some? && ContainsIgnoringCase(url.value, CallbackScheme)
    ensures d.policy == Allow ==> !d.firesSuccess && !d.firesCancel
    ensures d.firesSuccess <==> d.policy == Cancel && ContainsIgnoringCase(url.value, SuccessMarker)
    ensures d.firesCancel <==> d.policy == Cancel && ContainsIgnoringCase(url.value, CancelledMarker)
  {
    match url
    case None => Decision(Allow, false, false)
    case Some(u) =>
      if ContainsIgnoringCase(u, CallbackScheme) then
        Decision(Cancel, ContainsIgnoringCase(u, SuccessMarker), ContainsIgnoringCase(u, CancelledMarker))
      else Decision(Allow, false, false)
  }

  // ---------------------------------------------------------------------
  // Properties
  // ---------------------------------------------------------------------

  /** Wherever the scheme occurs in a URL, the navigation is cancelled. */
  lemma SchemeAnywhereIsCancelled(before: string, after: string)
    ensures DecidePolicy(Some(before + CallbackScheme + after)).policy == Cancel
  {
    ContainsPiece(before, CallbackScheme, after);
  }

  /** Only the letters' case is ignored: two URLs that fold to the same text get the same decision. */
  lemma DecisionIgnoresCase(u: string, v: string)
    requires LowerAll(u) == LowerAll(v)
    ensures DecidePolicy(Some(u)) == DecidePolicy(Some(v))
  {
  }

  // The facts about the literal URLs are proved for any scheme with the
  // relevant letters missing, so that the solver never has to search the
  // literal scheme itself.

  lemma MarkersMissingFrom(scheme: string)
    requires 'c' !in scheme && 'C' !in scheme
    ensures !ContainsIgnoringCase(scheme, SuccessMarker)
    ensures !ContainsIgnoringCase(scheme, CancelledMarker)
  {
    NoLowerC(scheme);
    assert LowerAll(SuccessMarker)[2] == 'c';
    assert LowerAll(CancelledMarker)[0] == 'c';
    MissingCharacter(LowerAll(scheme), LowerAll(SuccessMarker), 2);
    MissingCharacter(LowerAll(scheme), LowerAll(CancelledMarker), 0);
  }

  /** The scheme occurs in any URL that starts with it. */
  lemma StartsWithScheme(scheme: string, rest: string)
    ensures ContainsIgnoringCase(scheme + rest, scheme)
  {
    ContainsPiece([], scheme, rest);
    assert [] + scheme + rest == scheme + rest;
  }

  /** A marker occurs in any URL that ends with it. */
  lemma EndsWithMarker(prefix: string, marker: string)
    ensures ContainsIgnoringCase(prefix + marker, marker)
  {
    ContainsPiece(prefix, marker, []);
    assert prefix + marker + [] == prefix + marker;
  }

  /** "cancelled" needs an 'l', and the success URL has none. */
  lemma SuccessURLNotCancelled(scheme: string)
    requires 'l' !in scheme && 'L' !in scheme
    ensures !ContainsIgnoringCase(scheme + "?" + SuccessMarker, CancelledMarker)
  {
    var u := scheme + "?" + SuccessMarker;
    assert 'l' !in u && 'L' !in u by {
      assert forall i :: 0 <= i < |u| ==> u[i] == if i < |scheme| then scheme[i] else ("?" + SuccessMarker)[i - |scheme|];
    }
    NoLowerL(u);
    assert LowerAll(CancelledMarker)[6] == 'l';
    MissingCharacter(LowerAll(u), LowerAll(CancelledMarker), 6);
  }

  /**
   * A text with 'u' then 'c' does not occur in `head + tail` when every 'c'
   * lies in `tail`, no 'u' does, and `head` does not end in 'u'.
   */
  lemma NoUThenC(head: string, tail: string, m: string)
    requires 'c' !in head && 'u' !in tail
    requires |head| > 0 && head[|head| - 1] != 'u'
    requires |m| >= 3 && m[1] == 'u' && m[2] == 'c'
    ensures !Contains(head + tail, m)
  {
    var s := head + tail;
    forall i | 0 <= i <= |s| - |m|
      ensures !OccursAt(s, m, i)
    {
      var piece := s[i..i + |m|];
      if i + 2 < |head| {
        assert piece[2] == head[i + 2];
      } else if i + 1 < |head| {
        assert piece[1] == head[|head| - 1];
      } else {
        assert piece[1] == tail[i + 1 - |head|];
      }
    }
  }

  lemma CancelledTailHasNoU()
    ensures 'u' !in LowerAll("?" + CancelledMarker)
  {
    assert LowerAll("?" + CancelledMarker) == "?cancelled";
  }

  lemma SuccessMarkerShape()
    ensures |LowerAll(SuccessMarker)| == 7 && LowerAll(SuccessMarker)[1] == 'u' && LowerAll(SuccessMarker)[2] == 'c'
  {
  }

  /** "success" has 'u' then 'c'; in the cancelled URL every 'c' lies after the scheme and no 'u' does. */
  lemma CancelledURLNotSuccess(scheme: string)
    requires 'c' !in scheme && 'C' !in scheme
    requires |scheme| > 0 && Lower(scheme[|scheme| - 1]) != 'u'
    ensures !ContainsIgnoringCase(scheme + "?" + CancelledMarker, SuccessMarker)
  {
    var tail := "?" + CancelledMarker;
    assert scheme + "?" + CancelledMarker == scheme + tail;
    LowerAllConcat(scheme, tail);
    NoLowerC(scheme);
    CancelledTailHasNoU();
    SuccessMarkerShape();
    NoUThenC(LowerAll(scheme), LowerAll(tail), LowerAll(SuccessMarker));
  }

  /** The success URL has the scheme and "success" and not "cancelled". */
  lemma SuccessURLContents(scheme: string)
    requires 'l' !in scheme && 'L' !in scheme
    ensures var u := scheme + "?" + SuccessMarker;
      && ContainsIgnoringCase(u, scheme)
      && ContainsIgnoringCase(u, SuccessMarker)
      && !ContainsIgnoringCase(u, CancelledMarker)
  {
    StartsWithScheme(scheme, "?" + SuccessMarker);
    assert scheme + ("?" + SuccessMarker) == scheme + "?" + SuccessMarker;
    EndsWithMarker(scheme + "?", SuccessMarker);
    SuccessURLNotCancelled(scheme);
  }

  /** The cancelled URL has the scheme and "cancelled" and not "success". */
  lemma CancelledURLContents(scheme: string)
    requires 'c' !in scheme && 'C' !in scheme
    requires |scheme| > 0 && Lower(scheme[|scheme| - 1]) != 'u'
    ensures var u := scheme + "?" + CancelledMarker;
      && ContainsIgnoringCase(u, scheme)
      && ContainsIgnoringCase(u, CancelledMarker)
      && !ContainsIgnoringCase(u, SuccessMarker)
  {
    StartsWithScheme(scheme, "?" + CancelledMarker);
    assert scheme + ("?" + CancelledMarker) == scheme + "?" + CancelledMarker;
    EndsWithMarker(scheme + "?", CancelledMarker);
    CancelledURLNotSuccess(scheme);
  }

  /** The bare scheme has the scheme and neither marker. */
  lemma SchemeAloneContents(scheme: string)
    requires 'c' !in scheme && 'C' !in scheme
    ensures ContainsIgnoringCase(scheme, scheme)
    ensures !ContainsIgnoringCase(scheme, SuccessMarker) && !ContainsIgnoringCase(scheme, CancelledMarker)
  {
    StartsWithScheme(scheme, []);
    assert scheme + [] == scheme;
    MarkersMissingFrom(scheme);
  }

  /** Each of `a`, `x` and `y` occurs in `a + s + x + t + y`. */
  lemma ThreePieces(a: string, s: string, x: string, t: string, y: string)
    ensures var u := a + s + x + t + y;
      ContainsIgnoringCase(u, a) && ContainsIgnoringCase(u, x) && ContainsIgnoringCase(u, y)
  {
    var u := a + s + x + t + y;
    StartsWithScheme(a, s + x + t + y);
    assert a + (s + x + t + y) == u;
    ContainsPiece(a + s, x, t + y);
    assert a + s + x + (t + y) == u;
    EndsWithMarker(a + s + x + t, y);
  }

  lemma BothMarkersContents(scheme: string)
    ensures var u := scheme + "?" + SuccessMarker + "&" + CancelledMarker;
      && ContainsIgnoringCase(u, scheme)
      && ContainsIgnoringCase(u, SuccessMarker)
      && ContainsIgnoringCase(u, CancelledMarker)
  {
    ThreePieces(scheme, "?", SuccessMarker, "&", CancelledMarker);
  }

  /** Returning to the success URL closes the page and reports success only. */
  lemma SuccessURLDecision()
    ensures DecidePolicy(Some(SuccessURL())) == Decision(Cancel, true, false)
  {
    SuccessURLContents(CallbackScheme);
  }

  /** Returning to the cancelled URL closes the page and reports cancellation only. */
  lemma CancelledURLDecision()
    ensures DecidePolicy(Some(CancelledURL())) == Decision(Cancel, false, true)
  {
    CancelledURLContents(CallbackScheme);
  }

  /** The two markers are independent: a URL under the scheme may report both... */
  lemma BothMarkersDecision()
    ensures DecidePolicy(Some(CallbackScheme + "?" + SuccessMarker + "&" + CancelledMarker))
            == Decision(Cancel, true, true)
  {
    BothMarkersContents(CallbackScheme);
  }

  /** ...or neither: the bare scheme is refused without a callback. */
  lemma SchemeAloneDecision()
    ensures DecidePolicy(Some(CallbackScheme)) == Decision(Cancel, false, false)
  {
    SchemeAloneContents(CallbackScheme);
  }
}
