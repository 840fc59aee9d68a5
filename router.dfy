/**
  First-match routing (src/router.py): `Router.pick` scans the routes in
  declaration order and returns the first one whose keywords match the
  text, or `(None, True)` when none does and the default route applies.
 */
module Router {
  import opened Wrappers
  import opened Models

  /** `i` is the earliest position of a route matching `text`. */
  ghost predicate FirstMatchAt(routes: seq<Route>, text: string, i: int) {
    && 0 <= i < |routes|
    && Matches(routes[i], text)
    && forall j :: 0 <= j < i ==> !Matches(routes[j], text)
  }

  /** `pick`: the flag is set exactly when no route is returned; a returned
      route sits at the earliest matching position; no route is returned
      only when none matches. */
  function Pick(routes: seq<Route>, text: string): (p: (Option<Route>, bool))
    ensures p.1 <==> p.0.None?
    ensures p.0.None? ==> forall j :: 0 <= j < |routes| ==> !Matches(routes[j], text)
    ensures p.0.Some? ==> exists i :: FirstMatchAt(routes, text, i) && routes[i] == p.0.value
  {
    if routes == [] then (None, true)
    else if Matches(routes[0], text) then
      assert FirstMatchAt(routes, text, 0);
      (Some(routes[0]), false)
    else
      var p := Pick(routes[1..], text);
      FirstMatchShift(routes, text, p.0);
      p
  }

  /** A first match in the tail of a list whose head does not match is a
      first match of the whole list, one position later. */
  lemma FirstMatchShift(routes: seq<Route>, text: string, picked: Option<Route>)
    requires routes != [] && !Matches(routes[0], text)
    requires picked.Some? ==> exists i :: FirstMatchAt(routes[1..], text, i) && routes[1..][i] == picked.value
    ensures picked.Some? ==> exists i :: FirstMatchAt(routes, text, i) && routes[i] == picked.value
  {
    if picked.Some? {
      var i :| FirstMatchAt(routes[1..], text, i) && routes[1..][i] == picked.value;
      assert FirstMatchAt(routes, text, i + 1);
    }
  }

  /** The earliest matching route is the one returned. */
  lemma {:induction false} PickReturnsFirstMatch(routes: seq<Route>, text: string, i: int)
    requires FirstMatchAt(routes, text, i)
    ensures Pick(routes, text) == (Some(routes[i]), false)
  {
    if i > 0 {
      assert FirstMatchAt(routes[1..], text, i - 1);
      PickReturnsFirstMatch(routes[1..], text, i - 1);
    }
  }

  /** Ties go to declaration order: when routes `i < j` both match, the
      route returned sits at position `i` or earlier. */
  lemma {:induction false} PickPrefersEarlier(routes: seq<Route>, text: string, i: int, j: int)
    requires 0 <= i < j < |routes|
    requires Matches(routes[i], text) && Matches(routes[j], text)
    ensures exists k :: 0 <= k <= i && Pick(routes, text) == (Some(routes[k]), false)
  {
    var p := Pick(routes, text);
    var k :| FirstMatchAt(routes, text, k) && routes[k] == p.0.value;
    assert k <= i;
    PickReturnsFirstMatch(routes, text, k);
  }

  /** The default applies exactly when no route matches the text. */
  lemma {:induction false} PickDefaultIffNoMatch(routes: seq<Route>, text: string)
    ensures Pick(routes, text) == (None, true) <==> forall j :: 0 <= j < |routes| ==> !Matches(routes[j], text)
  {
    var p := Pick(routes, text);
    if p.0.Some? {
      var k :| FirstMatchAt(routes, text, k) && routes[k] == p.0.value;
      assert Matches(routes[k], text);
    }
  }
}
