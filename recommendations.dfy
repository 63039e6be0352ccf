/**
 * The recommendations page: a fixed catalogue of six activities, each card
 * flipping between its front and its explanation, and a set of activities
 * the user has tried today, which unlocks a banner once it holds three.
 */
module Recommendations {

  /** One catalogue entry, reduced to what the page's logic reads: its id and its priority. */
  datatype Recommendation = Recommendation(id: int, priority: string)

  /** The catalogue, in display order. */
  const Catalog: seq<Recommendation> := [
    Recommendation(1, "High"),
    Recommendation(2, "Medium"),
    Recommendation(3, "Low"),
    Recommendation(4, "Medium"),
    Recommendation(5, "High"),
    Recommendation(6, "Medium")
  ]

  const MutedBadge: string := "bg-muted"

  /** `getPriorityColor`: a badge style for each known priority and a muted one for anything else. */
  function PriorityColor(priority: string): (r: string)
    ensures priority == "High" ==> r == "bg-destructive/10 text-destructive border-destructive/20"
    ensures priority == "Medium" ==> r == "bg-warning/10 text-warning border-warning/20"
    ensures priority == "Low" ==> r == "bg-success/10 text-success border-success/20"
    ensures r == MutedBadge <==> priority != "High" && priority != "Medium" && priority != "Low"
  {
    match priority
    case "High" => "bg-destructive/10 text-destructive border-destructive/20"
    case "Medium" => "bg-warning/10 text-warning border-warning/20"
    case "Low" => "bg-success/10 text-success border-success/20"
    case _ => MutedBadge
  }

  /** Every activity in the catalogue has a known priority, so none shows the muted badge; the ids are 1 to 6 in order. */
  lemma CatalogWellFormed()
    ensures forall r :: r in Catalog ==> PriorityColor(r.priority) != MutedBadge
    ensures forall i :: 0 <= i < |Catalog| ==> Catalog[i].id == i + 1
  {
    var known := ["High", "Medium", "Low"];
    forall r | r in Catalog ensures r.priority in known {
    }
  }

  /* ---------------- flipping cards ---------------- */

  /** The flipped set after `toggleCard(id)`. */
  function Toggled(flipped: set<int>, id: int): (r: set<int>)
    ensures id in r <==> id !in flipped
    ensures forall x :: x != id ==> (x in r <==> x in flipped)
  {
    if id in flipped then flipped - {id} else flipped + {id}
  }

  /** Flipping a card twice turns it back. */
  lemma ToggleTwice(flipped: set<int>, id: int)
    ensures Toggled(Toggled(flipped, id), id) == flipped
  {
  }

  /** Flipping two different cards gives the same result in either order. */
  lemma ToggleCommutes(flipped: set<int>, a: int, b: int)
    ensures Toggled(Toggled(flipped, a), b) == Toggled(Toggled(flipped, b), a)
  {
  }

  /* ---------------- completed activities ---------------- */

  /** The completed set after `handleTryAction(id)`. */
  function WithCompleted(completed: set<int>, id: int): (r: set<int>)
    ensures id in r && completed <= r
    ensures forall x :: x in r ==> x == id || x in completed
    ensures |r| == if id in completed then |completed| else |completed| + 1
  {
    completed + {id}
  }

  /** Trying the same activity again changes nothing. */
  lemma TryActionIdempotent(completed: set<int>, id: int)
    ensures WithCompleted(WithCompleted(completed, id), id) == WithCompleted(completed, id)
  {
  }

  /** The achievement banner's condition. */
  predicate ShowBanner(completed: set<int>): (b: bool)
    ensures b <==> exists x, y, z :: x in completed && y in completed && z in completed && x != y && y != z && x != z
  {
    ThreeDistinct(completed);
    |completed| >= 3
  }

  /** A set has at least three elements exactly when it holds three different ones. */
  lemma ThreeDistinct(s: set<int>)
    ensures |s| >= 3 <==> exists x, y, z :: x in s && y in s && z in s && x != y && y != z && x != z
  {
    if |s| >= 3 {
      var x := Pick(s);
      var y := Pick(s - {x});
      var z := Pick(s - {x} - {y});
      assert x in s && y in s && z in s && x != y && y != z && x != z;
    }
    if exists x, y, z :: x in s && y in s && z in s && x != y && y != z && x != z {
      var x, y, z :| x in s && y in s && z in s && x != y && y != z && x != z;
      var three := {x, y, z};
      assert |three| == 3;
      assert s == (s - three) + three && (s - three) * three == {};
    }
  }

  /** Some element of a non-empty set; the rest has one element fewer. */
  lemma Pick(s: set<int>) returns (x: int)
    requires |s| > 0
    ensures x in s && |s - {x}| == |s| - 1
  {
    if forall y :: y !in s {
      assert false;
    }
    x :| x in s;
    assert s == (s - {x}) + {x} && (s - {x}) * {x} == {};
  }

  /** Completed activities are only ever added, so once the banner shows it keeps showing. */
  lemma BannerStays(completed: set<int>, id: int)
    ensures ShowBanner(completed) ==> ShowBanner(WithCompleted(completed, id))
  {
  }

  /** From an empty day, trying three activities shows the banner exactly when they are three different ones. */
  lemma BannerAfterThree(a: int, b: int, c: int)
    ensures ShowBanner(WithCompleted(WithCompleted(WithCompleted({}, a), b), c))
      <==> a != b && b != c && a != c
  {
    var s := WithCompleted(WithCompleted(WithCompleted({}, a), b), c);
    assert s == {a, b, c};
  }

  /** The page's state: today's completed activities and the flipped cards. */
  class RecommendationsPage {
    var completed: set<int>
    var flipped: set<int>

    constructor ()
      ensures completed == {} && flipped == {}
    {
      completed := {};
      flipped := {};
    }

    /** `toggleCard`: copy the flipped set, then delete or add the id. */
    method ToggleCard(id: int)
      modifies this
      ensures flipped == Toggled(old(flipped), id)
      ensures completed == old(completed)
    {
      var newSet := flipped;
      if id in newSet {
        newSet := newSet - {id};
      } else {
        newSet := newSet + {id};
      }
      flipped := newSet;
    }

    /** `handleTryAction`: mark the activity as completed. */
    method TryAction(id: int)
      modifies this
      ensures completed == WithCompleted(old(completed), id)
      ensures flipped == old(flipped)
    {
      completed := completed + {id};
    }
  }
}
