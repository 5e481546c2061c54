/**
 * Building reviews. The `reviews` collection is a sequence of stored
 * documents kept in the order the building query returns them (newest
 * `createdAt` first); ratings are exact reals.
 */
module Reviews {
  import opened Firestore

  /** The fields a caller supplies: `Omit<BuildingReview, "id" | "createdAt">`. */
  datatype ReviewInput = ReviewInput(buildingId: string, userId: string, userName: string, rating: real, comment: string)

  /** A document of the collection: its id and its data. */
  datatype StoredReview = StoredReview(docId: string, data: ReviewInput, createdAt: Value)

  /** A review as returned to the app: the document's data plus `id`. */
  datatype BuildingReview = BuildingReview(
    id: string, buildingId: string, userId: string, userName: string, rating: real, comment: string, createdAt: Value)

  /** `{ ...d.data(), id: d.id }`. */
  function WithId(d: StoredReview): (r: BuildingReview)
    ensures r.id == d.docId && r.createdAt == d.createdAt
    ensures r.buildingId == d.data.buildingId && r.userId == d.data.userId && r.userName == d.data.userName
    ensures r.rating == d.data.rating && r.comment == d.data.comment
  {
    BuildingReview(d.docId, d.data.buildingId, d.data.userId, d.data.userName, d.data.rating, d.data.comment, d.createdAt)
  }

  predicate HasDocId(reviews: seq<StoredReview>, id: string) {
    exists d :: d in reviews && d.docId == id
  }

  /** `getBuildingReviews`: the documents of that building, each with its id attached, in query order. */
  function GetBuildingReviews(reviews: seq<StoredReview>, buildingId: string): (r: seq<BuildingReview>)
    ensures |r| <= |reviews|
    decreases |reviews|
  {
    if reviews == [] then []
    else (if reviews[0].data.buildingId == buildingId then [WithId(reviews[0])] else []) + GetBuildingReviews(reviews[1..], buildingId)
  }

  /** The query returns exactly the documents of that building, each with its id attached. */
  lemma {:induction false} GetBuildingReviewsMembers(reviews: seq<StoredReview>, buildingId: string)
    ensures var r := GetBuildingReviews(reviews, buildingId);
      && (forall x :: x in r ==> x.buildingId == buildingId)
      && (forall x :: x in r ==> exists d :: d in reviews && d.docId == x.id && WithId(d) == x)
      && (forall d :: d in reviews && d.data.buildingId == buildingId ==> WithId(d) in r)
    decreases |reviews|
  {
    if reviews != [] {
      GetBuildingReviewsMembers(reviews[1..], buildingId);
      assert forall d :: d in reviews[1..] ==> d in reviews;
      assert forall d :: d in reviews ==> d == reviews[0] || d in reviews[1..];
    }
  }

  /** The query keeps the collection's order: it distributes over concatenation. */
  lemma {:induction false} GetBuildingReviewsAppend(a: seq<StoredReview>, b: seq<StoredReview>, buildingId: string)
    ensures GetBuildingReviews(a + b, buildingId) == GetBuildingReviews(a, buildingId) + GetBuildingReviews(b, buildingId)
    decreases |a|
  {
    if a == [] {
      assert a + b == b;
    } else {
      var head := if a[0].data.buildingId == buildingId then [WithId(a[0])] else [];
      var restA, restB := GetBuildingReviews(a[1..], buildingId), GetBuildingReviews(b, buildingId);
      assert (a + b)[0] == a[0];
      assert (a + b)[1..] == a[1..] + b;
      GetBuildingReviewsAppend(a[1..], b, buildingId);
      assert GetBuildingReviews(a + b, buildingId) == head + (restA + restB);
      assert GetBuildingReviews(a, buildingId) == head + restA;
      assert head + (restA + restB) == (head + restA) + restB;
    }
  }

  /** The collection and the id returned by `addBuildingReview`. */
  datatype Added = Added(id: string, reviews: seq<StoredReview>)

  /**
   * `addBuildingReview`: `addDoc` stores the fields plus a server `createdAt`
   * under a fresh id chosen by Firestore (`newId`), which is returned; being the
   * newest, the document comes first in query order.
   */
  function AddBuildingReview(reviews: seq<StoredReview>, review: ReviewInput, newId: string): (r: Added)
    requires !HasDocId(reviews, newId)
    ensures r.id == newId && HasDocId(r.reviews, r.id)
    ensures !HasDocId(reviews, r.id)
    ensures exists d :: d in r.reviews && d.docId == r.id && d.data == review
    ensures |r.reviews| == |reviews| + 1 && r.reviews[1..] == reviews
  {
    var d := StoredReview(newId, review, ServerTimestamp);
    assert ([d] + reviews)[0] == d;
    Added(newId, [d] + reviews)
  }

  /** `deleteReview`: the document with that id is gone, all others stay in order. */
  function DeleteReview(reviews: seq<StoredReview>, id: string): (r: seq<StoredReview>)
    ensures |r| <= |reviews|
    decreases |reviews|
  {
    if reviews == [] then []
    else (if reviews[0].docId == id then [] else [reviews[0]]) + DeleteReview(reviews[1..], id)
  }

  /**
   * After a delete, no document has that id, every other document is still
   * there, none is new, and without such a document nothing changes.
   */
  lemma {:induction false} DeleteReviewMembers(reviews: seq<StoredReview>, id: string)
    ensures var r := DeleteReview(reviews, id);
      && !HasDocId(r, id)
      && (forall d :: d in reviews && d.docId != id ==> d in r)
      && (forall d :: d in r ==> d in reviews)
      && (!HasDocId(reviews, id) ==> r == reviews)
    decreases |reviews|
  {
    if reviews != [] {
      DeleteReviewMembers(reviews[1..], id);
      assert forall d :: d in reviews[1..] ==> d in reviews;
      assert forall d :: d in reviews ==> d == reviews[0] || d in reviews[1..];
      assert !HasDocId(reviews, id) ==> reviews[0].docId != id && !HasDocId(reviews[1..], id) by {
        assert reviews[0] in reviews;
      }
      assert reviews == [reviews[0]] + reviews[1..];
    }
  }

  /** Deleting keeps the order of the collection: it distributes over concatenation. */
  lemma {:induction false} DeleteReviewAppend(a: seq<StoredReview>, b: seq<StoredReview>, id: string)
    ensures DeleteReview(a + b, id) == DeleteReview(a, id) + DeleteReview(b, id)
    decreases |a|
  {
    if a == [] {
      assert a + b == b;
    } else {
      var head := if a[0].docId == id then [] else [a[0]];
      var restA, restB := DeleteReview(a[1..], id), DeleteReview(b, id);
      assert (a + b)[0] == a[0];
      assert (a + b)[1..] == a[1..] + b;
      DeleteReviewAppend(a[1..], b, id);
      assert DeleteReview(a + b, id) == head + (restA + restB);
      assert DeleteReview(a, id) == head + restA;
      assert head + (restA + restB) == (head + restA) + restB;
    }
  }

  // ── getBuildingAverageRating ───────────────────────────────────────────────

  /** `reviews.reduce((acc, r) => acc + r.rating, 0)`, folding from the left. */
  function RatingSum(rs: seq<BuildingReview>): real
    decreases |rs|
  {
    if rs == [] then 0.0 else RatingSum(rs[..|rs| - 1]) + rs[|rs| - 1].rating
  }

  lemma {:induction false} RatingSumCons(x: BuildingReview, rs: seq<BuildingReview>)
    ensures RatingSum([x] + rs) == x.rating + RatingSum(rs)
    decreases |rs|
  {
    if rs != [] {
      var init := rs[..|rs| - 1];
      assert ([x] + rs)[..|rs|] == [x] + init;
      RatingSumCons(x, init);
    } else {
      assert [x] + rs == [x];
      assert [x][..0] == [];
    }
  }

  predicate RatingsInRange(rs: seq<BuildingReview>) {
    forall i :: 0 <= i < |rs| ==> 1.0 <= rs[i].rating <= 5.0
  }

  /** With every rating between 1 and 5, the sum lies between the count and five times the count. */
  lemma {:induction false} RatingSumBounds(rs: seq<BuildingReview>)
    requires RatingsInRange(rs)
    ensures |rs| as real <= RatingSum(rs) <= 5.0 * |rs| as real
    decreases |rs|
  {
    if rs != [] {
      RatingSumBounds(rs[..|rs| - 1]);
    }
  }

  datatype RatingSummary = RatingSummary(average: real, count: nat)

  /** `s` reports `rs`: their number, and an average that times the number gives their rating sum (0 when there are none). */
  predicate Reports(s: RatingSummary, rs: seq<BuildingReview>) {
    && s.count == |rs|
    && (s.count == 0 ==> s.average == 0.0)
    && s.average * s.count as real == RatingSum(rs)
  }

  /** The result of `getBuildingAverageRating` for the reviews the query returned. */
  function Summarize(rs: seq<BuildingReview>): (s: RatingSummary)
    ensures rs == [] ==> s == RatingSummary(0.0, 0)
    ensures Reports(s, rs)
  {
    if |rs| == 0 then RatingSummary(0.0, 0)
    else RatingSummary(RatingSum(rs) / |rs| as real, |rs|)
  }

  /** `getBuildingAverageRating`: the summary of that building's reviews. */
  function GetBuildingAverageRating(reviews: seq<StoredReview>, buildingId: string): (s: RatingSummary)
    ensures s.count == |GetBuildingReviews(reviews, buildingId)|
    ensures s.count <= |reviews|
    ensures Reports(s, GetBuildingReviews(reviews, buildingId))
  {
    Summarize(GetBuildingReviews(reviews, buildingId))
  }

  /** With the documented 1 to 5 ratings, a non-empty average lies between 1 and 5. */
  lemma AverageInRange(rs: seq<BuildingReview>)
    requires RatingsInRange(rs) && rs != []
    ensures 1.0 <= Summarize(rs).average <= 5.0
  {
    RatingSumBounds(rs);
    QuotientBounds(RatingSum(rs), |rs| as real);
  }

  lemma QuotientBounds(s: real, n: real)
    requires 0.0 < n && n <= s <= 5.0 * n
    ensures 1.0 <= s / n <= 5.0
  {
    var q := s / n;
    assert q * n == s;
    assert 1.0 <= q;
    assert q <= 5.0;
  }

  /** Adding a review for a building counts it once more and adds its rating to the building's sum. */
  lemma AddUpdatesSummary(reviews: seq<StoredReview>, review: ReviewInput, newId: string)
    requires !HasDocId(reviews, newId)
    ensures var before := GetBuildingReviews(reviews, review.buildingId);
      var after := GetBuildingReviews(AddBuildingReview(reviews, review, newId).reviews, review.buildingId);
      && |after| == |before| + 1
      && RatingSum(after) == RatingSum(before) + review.rating
      && after[0].id == newId
  {
    var d := StoredReview(newId, review, ServerTimestamp);
    var added := AddBuildingReview(reviews, review, newId).reviews;
    assert added == [d] + reviews;
    GetBuildingReviewsAppend([d], reviews, review.buildingId);
    assert GetBuildingReviews([d], review.buildingId) == [WithId(d)] by {
      assert [d][1..] == [];
    }
    RatingSumCons(WithId(d), GetBuildingReviews(reviews, review.buildingId));
  }

  /** A review for another building changes nothing about this building's rating. */
  lemma AddOtherBuilding(reviews: seq<StoredReview>, review: ReviewInput, newId: string, buildingId: string)
    requires !HasDocId(reviews, newId) && review.buildingId != buildingId
    ensures GetBuildingAverageRating(AddBuildingReview(reviews, review, newId).reviews, buildingId)
         == GetBuildingAverageRating(reviews, buildingId)
  {
    var d := StoredReview(newId, review, ServerTimestamp);
    assert AddBuildingReview(reviews, review, newId).reviews == [d] + reviews;
    GetBuildingReviewsAppend([d], reviews, buildingId);
    assert GetBuildingReviews([d], buildingId) == [] by {
      assert [d][1..] == [];
    }
    assert [] + GetBuildingReviews(reviews, buildingId) == GetBuildingReviews(reviews, buildingId);
  }
}
