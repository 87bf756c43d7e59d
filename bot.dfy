/**
  The photo handler's use of the core: analyse, then look the classified
  shape up.  Downloading, message text and sending are outside the model; the
  reply is the content the handler would send.
*/
module Bot {
  import opened Config
  import opened FaceAnalyzer
  import opened HairstyleRecommender

  datatype Reply =
    | NoFace
    | Error
    | Report(description: string, hairstyles: seq<string>, measurements: Measurements)

  /** What the classifier reports passes through the lookup unchanged, when OVAL is in the table. */
  lemma ClassifiedShapeIsLookedUpAsIs(rec: Recommender, m: Measurements)
    requires Oval in Keys(rec.faceShapes)
    ensures LookupKey(rec, Classify(rec.faceShapes, m)) == Classify(rec.faceShapes, m)
  {
    ClassifyYieldsKey(rec.faceShapes, m);
  }

  /** The advice for a classified shape is the matched entry's, or the OVAL entry's when nothing matched. */
  lemma ClassifiedAdvice(rec: Recommender, m: Measurements)
    requires WellConfigured(rec) && DistinctNames(rec.faceShapes)
    ensures var table := rec.faceShapes;
      var k := FirstMatch(table, m);
      var shape := Classify(table, m);
      && GetRecommendations(rec, shape).Some?
      && GetRecommendations(rec, shape).value.hairstyles == rec.recommendations[shape]
      && (k < |table| ==> GetRecommendations(rec, shape).value.description == table[k].criteria.description)
      && (k == |table| ==> exists i :: 0 <= i < |table| && table[i].name == Oval
                             && GetRecommendations(rec, shape).value.description == table[i].criteria.description)
  {
    var table := rec.faceShapes;
    var k := FirstMatch(table, m);
    if k < |table| {
      KnownShapeAdvice(rec, k);
    } else {
      var e :| e in table && e.name == Oval;
      var i :| 0 <= i < |table| && table[i] == e;
      KnownShapeAdvice(rec, i);
    }
  }

  /** What the handler replies, given the analysis outcome; a failed lookup raises and becomes the error reply. */
  function ReplyTo(rec: Recommender, analysis: Option<Analysis>): (reply: Reply)
    ensures reply.NoFace? <==> analysis.None?
    ensures reply.Error? <==> analysis.Some? && GetRecommendations(rec, analysis.value.faceShape).None?
    ensures reply.Report? ==>
      && reply.measurements == analysis.value.measurements
      && GetRecommendations(rec, analysis.value.faceShape) == Some(Advice(reply.description, reply.hairstyles))
  {
    match analysis
    case None => NoFace
    case Some(a) =>
      match GetRecommendations(rec, a.faceShape)
      case None => Error
      case Some(advice) => Report(advice.description, advice.hairstyles, a.measurements)
  }

  /** A successful analysis under a sound configuration is reported with the
      classified shape's own hairstyles, never as an error. */
  lemma AnalysedFaceIsReported(rec: Recommender, a: Analysis)
    requires WellConfigured(rec) && DistinctNames(rec.faceShapes)
    requires a.faceShape == Classify(rec.faceShapes, a.measurements)
    ensures var reply := ReplyTo(rec, Some(a));
      && reply.Report?
      && reply.hairstyles == rec.recommendations[a.faceShape]
      && reply.measurements == a.measurements
  {
    ClassifiedAdvice(rec, a.measurements);
  }
}
