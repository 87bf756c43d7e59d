# Face-shape classification and hairstyle lookup, modelled in Dafny

The system takes a photo, lets a face-mesh detector find the landmarks of one
face, turns eight of those landmarks into four distances and three ratios,
classifies the face shape by the first entry of a configured rule table whose
three inclusive ranges all contain the ratios (OVAL when none does), and looks
the shape up in the same table and in a recommendation map to get a
description and an ordered list of hairstyles.

This project models that core:

- `config.dfy` (module `Config`): the rule table (`FACE_SHAPE_CRITERIA`) as an
  ordered sequence of named entries, in dictionary iteration order, each with
  three `Range`s and a description; the recommendation map
  (`HAIRSTYLE_RECOMMENDATIONS`); dictionary indexing as `Find`, with `None` for
  a `KeyError`. The table contents are configuration, so every property holds
  for any table.
- `face_analyzer.dfy` (module `FaceAnalyzer`): the pixel conversion loop, the
  loop that decides which mesh connections get drawn, the distance, the three
  ratios, the first-match classifier as a loop (`DetermineFaceShape`) proved
  equal to a recursive specification (`FirstMatch`, `Classify`), and the whole
  `analyze_face_shape` as a method (`AnalyzeFaceShape`) whose `None` stands for
  the source's `(None, None, None)`.
- `hairstyle_recommender.dfy` (module `HairstyleRecommender`): the lookup with
  its substitution of OVAL for unknown shapes. The recommender is a datatype
  value built once from the two tables; the lookup is a function of it, so it
  cannot change either table.
- `bot.dfy` (module `Bot`): how the photo handler combines the two: analysis,
  then lookup of the classified shape, and what that composition guarantees.

The square root is a parameter `sqrt: real -> real` of the distance. Lemmas that
need its meaning assume `IsSqrt(sqrt)`: the root is non-negative, squares back
to its argument, and the root of zero is zero. Distances and ratios are `real`.

The code computes four distances. It does not validate the rule table. A
landmark list of 397 or fewer points raises an index error, which the handler
turns into the same empty result as "no face". A zero denominator is not
checked.

## Model

| member | source | states |
|---|---|---|
| `Config.Find` | hairstyle_recommender.py:18-22 | dictionary indexing succeeds exactly for a key of the table, yields an entry stored under that name, and with distinct keys yields that key's own entry |
| `FaceAnalyzer.KeyLandmarksInRange` | face_analyzer.py:66-83 | all eight landmark reads are in range exactly when the list holds more than 397 points |
| `FaceAnalyzer.Trunc` | face_analyzer.py:48 | `int()` truncates toward zero: the result is within one of the argument, below it for non-negative and above it for negative arguments |
| `FaceAnalyzer.ToPixels` | face_analyzer.py:46-49 | the loop yields one pixel point per detected landmark, in order, each the truncated scaled coordinates |
| `FaceAnalyzer.Drawable` | face_analyzer.py:57-62 | a connection is drawn if and only if it is in the list and both its endpoints are below the landmark count; nothing is added |
| `FaceAnalyzer.DrawableAppend` | face_analyzer.py:57-62 | the filter keeps the order of the connection list: filtering a concatenation concatenates the filtered parts |
| `FaceAnalyzer.DrawableKeepsInRange` | face_analyzer.py:58-62 | when every connection is in range, every connection is drawn, in list order |
| `FaceAnalyzer.DrawMesh` | face_analyzer.py:57-62 | the drawing loop draws exactly the in-range connections, in order |
| `FaceAnalyzer.SquaredDistance` | face_analyzer.py:116 | the sum of squared coordinate differences is never negative |
| `FaceAnalyzer.SquaredDistanceZeroIff` | face_analyzer.py:116 | the squared distance is zero exactly for identical points |
| `FaceAnalyzer.Distance` | face_analyzer.py:114-116 | for a true square root the distance is the non-negative number whose square is the sum of the squared coordinate differences |
| `FaceAnalyzer.DistanceSymmetric` | face_analyzer.py:114-116 | the distance does not depend on the order of the two points |
| `FaceAnalyzer.DistanceZeroIffSame` | face_analyzer.py:114-116 | with a true square root the distance is non-negative and zero exactly for identical points |
| `FaceAnalyzer.NonDegenerateIff` | face_analyzer.py:70-88 | both denominators are non-zero exactly when the forehead middle differs from the chin and the two jaw points differ |
| `FaceAnalyzer.MeasureRatios` | face_analyzer.py:64-88 | each ratio times its denominator gives its numerator: cheekbone width over face length, forehead width over jawline width, cheekbone width over jawline width, from the pairs (123,352), (10,152), (67,296), (172,397) |
| `FaceAnalyzer.RatiosDependOnKeyLandmarksOnly` | face_analyzer.py:66-88 | two landmark lists that agree on the eight key points give the same measurements |
| `FaceAnalyzer.RatiosNonNegative` | face_analyzer.py:86-88 | with a true square root no ratio is negative |
| `FaceAnalyzer.Matches` | face_analyzer.py:129-131 | an entry matches only when each of its three ranges is non-empty (low at most high), so an entry with an inverted range never matches |
| `FaceAnalyzer.FirstMatch` | face_analyzer.py:123-132 | the index found matches in all three ranges and no entry before it does; the table length when none matches |
| `FaceAnalyzer.Classify` | face_analyzer.py:118-135 | the classifier is total: the result is a key of the table or OVAL |
| `FaceAnalyzer.DetermineFaceShape` | face_analyzer.py:118-135 | the loop with early return yields the first fully matching entry's name, else OVAL |
| `FaceAnalyzer.ClassifyIsFirstMatch` | face_analyzer.py:123-132 | an entry that matches with no matching entry before it is the one reported |
| `FaceAnalyzer.ClassifyCases` | face_analyzer.py:118-135 | the result is either the first fully matching entry's name, or OVAL when no entry matches |
| `FaceAnalyzer.ClassifyDefaultsToOval` | face_analyzer.py:134-135 | when no entry matches all three ratios the result is OVAL |
| `FaceAnalyzer.MatchesAtBounds` | face_analyzer.py:129-131 | the ranges are closed: ratios equal to a low or high bound satisfy all three conditions |
| `FaceAnalyzer.ClassifyOrderMatters` | face_analyzer.py:123-132 | of two entries that both match, the earlier one wins, so swapping them changes the result |
| `FaceAnalyzer.ClassifyYieldsKey` | face_analyzer.py:118-135 | with OVAL in the table every result is a key of the table |
| `FaceAnalyzer.AnalyzeFaceShape` | face_analyzer.py:16-112 | nothing is returned exactly when the image does not decode, no face is found or the face has 397 or fewer landmarks; otherwise the measurements are the three ratios, the shape is their classification and the overlay holds every landmark and exactly the in-range connections |
| `HairstyleRecommender.LookupKey` | hairstyle_recommender.py:18-20 | the key looked up is the given shape or OVAL, and with OVAL in the table it is always a key of the table |
| `HairstyleRecommender.LookupKeyIdempotent` | hairstyle_recommender.py:18-20 | substituting a looked-up key again changes nothing |
| `HairstyleRecommender.GetRecommendations` | hairstyle_recommender.py:8-25 | the lookup fails (KeyError) exactly when the substituted key is missing from either table; otherwise the description is that key's entry's and the hairstyle list is that key's list verbatim |
| `HairstyleRecommender.LookupNeverFails` | hairstyle_recommender.py:18-23 | with OVAL in the criteria and every criteria key in the recommendations, no lookup fails |
| `HairstyleRecommender.UnknownShapeReadsOval` | hairstyle_recommender.py:18-25 | any unknown shape gets exactly the result of OVAL |
| `HairstyleRecommender.KnownShapeAdvice` | hairstyle_recommender.py:22-25 | a known shape gets its own description and its own hairstyle list, order kept |
| `Bot.ClassifiedShapeIsLookedUpAsIs` | bot.py:76-83 | with OVAL in the table a classified shape is never substituted by the lookup |
| `Bot.ClassifiedAdvice` | bot.py:76-83 | the advice for a classified shape is never a failure under a sound configuration; it carries the shape's own list, the matched entry's description, or the OVAL entry's description when nothing matched |
| `Bot.ReplyTo` | bot.py:76-93 | no analysis gives the no-face reply; a failed lookup gives the error reply; otherwise the report carries the lookup's description and list and the analysis' measurements |
| `Bot.AnalysedFaceIsReported` | bot.py:76-93 | under a sound configuration a classified face is always reported, with its shape's hairstyles and its measurements |

## Left out

- Image decoding, colour conversion, JPEG encoding and the circle and line drawing calls: foreign library code. Decoding is an `Option<Frame>` input (None when the bytes do not decode); the visualisation is the list of dots and the list of drawn connections.
- The face-mesh detector: an external model. Its output is an input sequence of faces, empty when none was found; only the first face is used.
- Floating point: coordinates, distances and ratios are exact reals, and `int()` is exact truncation of a real; rounding is not modelled.
- `np.sqrt` is not defined here; it is a parameter, and `IsSqrt` states what the lemmas assume of it.
- FaceAnalyzer.MeasureRatios: requires non-zero face length and jawline width; the source does not check them, and numpy would give an infinite or undefined ratio instead of failing.
- FaceAnalyzer.AnalyzeFaceShape: requires non-zero face length and jawline width for a face with more than 397 landmarks; on such a degenerate face the source goes on with infinite or undefined ratios, which the model does not describe.
- The mesh connection set is a set in the detector library; the model takes it as a sequence in whatever order it is iterated.
- The contents of the configuration file (the actual shapes, ranges, descriptions, hairstyles and bot message texts): every property is stated for an arbitrary table.
- The messaging bot: handlers, downloads, sending, polling, logging and the text formatting of the reply, including the two-decimal rendering of the measurements. Only the order of analysis and lookup and the choice of reply are modelled.
- Exceptions other than the index error on short landmark lists (memory, detector failures) are not modelled; they also end in the empty result.
