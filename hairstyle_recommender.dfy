/**
  HairstyleRecommender: the description and hairstyle list for a face shape.
  The recommender holds the two configuration tables, fixed when it is built;
  as a datatype value nothing it does can change them.
*/
module HairstyleRecommender {
  import opened Config

  datatype Recommender = Recommender(faceShapes: Table, recommendations: Recommendations)

  /** The pair the lookup returns: the shape's description and its hairstyles. */
  datatype Advice = Advice(description: string, hairstyles: seq<string>)

  /** The key that is looked up: the given shape when the criteria table knows it, OVAL otherwise. */
  function LookupKey(rec: Recommender, faceShape: string): (key: string)
    ensures key == faceShape || key == Oval
    ensures Oval in Keys(rec.faceShapes) ==> key in Keys(rec.faceShapes)
  {
    if faceShape in Keys(rec.faceShapes) then faceShape else Oval
  }

  /** `get_recommendations`; None where one of the two dictionary reads raises KeyError. */
  function GetRecommendations(rec: Recommender, faceShape: string): (r: Option<Advice>)
    ensures r.Some? <==>
      (faceShape in Keys(rec.faceShapes) || Oval in Keys(rec.faceShapes))
      && LookupKey(rec, faceShape) in rec.recommendations
    ensures r.Some? ==>
      && (exists c :: Entry(LookupKey(rec, faceShape), c) in rec.faceShapes && c.description == r.value.description)
      && r.value.hairstyles == rec.recommendations[LookupKey(rec, faceShape)]
  {
    var key := LookupKey(rec, faceShape);
    match Find(rec.faceShapes, key)
    case None => None
    case Some(criteria) =>
      if key in rec.recommendations then Some(Advice(criteria.description, rec.recommendations[key]))
      else None
  }

  /** Substituting twice is substituting once: a looked-up key is looked up as itself. */
  lemma LookupKeyIdempotent(rec: Recommender, faceShape: string)
    ensures LookupKey(rec, LookupKey(rec, faceShape)) == LookupKey(rec, faceShape)
  {
  }

  /** The configuration under which no lookup can fail. */
  predicate WellConfigured(rec: Recommender) {
    Oval in Keys(rec.faceShapes) && Keys(rec.faceShapes) <= rec.recommendations.Keys
  }

  /** Every lookup succeeds when OVAL is a shape and every shape has recommendations. */
  lemma LookupNeverFails(rec: Recommender, faceShape: string)
    requires WellConfigured(rec)
    ensures GetRecommendations(rec, faceShape).Some?
  {
  }

  /** An unknown shape gets exactly what OVAL gets. */
  lemma UnknownShapeReadsOval(rec: Recommender, faceShape: string)
    requires faceShape !in Keys(rec.faceShapes)
    ensures GetRecommendations(rec, faceShape) == GetRecommendations(rec, Oval)
  {
  }

  /** A known shape gets its own entry's description and its own list, order kept. */
  lemma KnownShapeAdvice(rec: Recommender, i: nat)
    requires DistinctNames(rec.faceShapes)
    requires i < |rec.faceShapes| && rec.faceShapes[i].name in rec.recommendations
    ensures var e := rec.faceShapes[i];
      GetRecommendations(rec, e.name) == Some(Advice(e.criteria.description, rec.recommendations[e.name]))
  {
    var e := rec.faceShapes[i];
    assert e.name in Keys(rec.faceShapes);
    assert Find(rec.faceShapes, e.name) == Some(e.criteria);
  }

}
