# LMS recommendation core and generic helpers, in Dafny

This project models two pieces of the LMS music server.

**Generic helpers (`utils.dfy`, module `Utils`).**
- `uniqueAndSortedByOccurence` counts how often each element occurs in a range, using an ordered map. It collects the (element, count) entries into a vector and sorts that vector in place by count, largest first. Then it writes each element once through an output iterator.
- The model keeps that shape. `CountOccurrences` is the first loop, filling a `map<T, nat>`. `CollectOccurrences` is the second loop. `SortByCountDescending` is an in-place insertion sort on an `array`. `WriteElements` is the third loop.
- `UniqueAndSortedByOccurrence` composes them. It is proved to write every distinct element exactly once, nothing that was not in the range, and most frequent first.
- `clamp` is a pure function over a comparison `less`.

**Feature-based classifier index and queries (`features_classifier.dfy`, module `Recommendation`).**
- A trained self-organizing map places each track on one or more cells (`Position`) of a grid.
- For tracks, releases and artists the classifier keeps a forward index, `ObjectPositions` (id to cells). It also keeps a reverse index, `MatrixOfObjects` (a grid whose cells hold ids). Artists have one reverse index per `TrackArtistLinkType`.
- The static lookups `GetMatchingRefVectorsPosition` and `GetObjectsIds` are functions of their arguments only.
- The class `FeaturesClassifier` holds the fields of the C++ class. The const queries are methods without a `modifies` clause, so the verifier checks that they change no field. That covers the network, every index and the per-link-type artist map.
- The network is abstract: its grid size and, for each cell, the cells within the learned distance scale.

## Model

| member | source | states |
|---|---|---|
| Utils.CountOccurrences | src/utils/Utils.hpp:75-83 | the table's keys are exactly the distinct elements of the range and each count equals the element's number of occurrences |
| Utils.CollectOccurrences | src/utils/Utils.hpp:85-93 | one entry per key of the table, no element twice, each entry carrying the table's count |
| Utils.SortByCountDescending | src/utils/Utils.hpp:95 | in place: afterwards counts are non-increasing and the array is a permutation of what it held |
| Utils.InsertIntoSortedPrefix | src/utils/Utils.hpp:95 | one insertion step: extends the sorted prefix by one entry, permutes only that prefix, and leaves the rest of the array as it was |
| Utils.SiftLeft | src/utils/Utils.hpp:95 | the insertion loop: stops with the moved entry no larger than the one before it, the array a permutation of what it held, and nothing after the prefix touched |
| Utils.InsertionStep | src/utils/Utils.hpp:95 | swapping the moved entry with a smaller predecessor keeps the prefix's ordering facts, the entries, and everything after the prefix |
| Utils.InsertionStopsSorted | src/utils/Utils.hpp:95 | once the moved entry no longer beats its predecessor, the prefix is sorted by count |
| Utils.WriteElements | src/utils/Utils.hpp:97-98 | the output is the sequence of elements of the sorted entries, in their order |
| Utils.UniqueAndSortedByOccurrence | src/utils/Utils.hpp:72-99 | every distinct element of the range is written exactly once, nothing else is written, the number written equals the number of distinct elements, counts are non-increasing, an empty range writes nothing |
| Utils.PermutationKeepsEntries | src/utils/Utils.hpp:91-95 | sorting the entries keeps each element exactly once with its recorded count |
| Utils.RankingFromSortedTable | src/utils/Utils.hpp:95-98 | a table of exact counts, sorted by count, yields the ranking promised for the range |
| Utils.MostFrequentFirst | src/utils/Utils.hpp:95-98 | when the range is not empty, the first element written occurs at least as often as any element of the range |
| Utils.OutputsArePermutations | src/utils/Utils.hpp:95-98 | any two admissible outputs for a range hold the same elements; only the order among equal counts is open |
| Utils.Clamp | src/utils/Utils.hpp:101-106 | requires the bounds not reversed and `less` irreflexive (the strict ordering that a `Compare` such as `std::less` follows); the result lies in [lo, hi]; it is lo below lo, hi above hi, v itself when in range, and always one of v, lo, hi |
| Utils.ClampInt | src/utils/Utils.hpp:101-105 | with the default `<`: lo <= r <= hi; lo when v < lo, hi when v > hi, v otherwise |
| Utils.ClampIdempotent | src/utils/Utils.hpp:105 | clamping a clamped value with the same bounds returns it unchanged |
| Recommendation.DefaultTrainSettings | src/libs/recommendation/impl/features/FeaturesClassifier.hpp:76-81 | a default TrainSettings has iterationCount 10, sampleCountPerNeuron 4 and an empty feature settings map |
| Recommendation.GetMatchingRefVectorsPosition | src/libs/recommendation/impl/features/FeaturesClassifier.hpp:93 | a cell is returned iff some query id is indexed at it; ids that are not indexed yield no cell |
| Recommendation.MatchingIgnoresUnknownIds | src/libs/recommendation/impl/features/FeaturesClassifier.hpp:93 | the lookup depends only on the query ids that are in the index |
| Recommendation.MatchingDistributesOverUnion | src/libs/recommendation/impl/features/FeaturesClassifier.hpp:93 | looking up a union of ids gives the union of the separate lookups |
| Recommendation.GetObjectsIds | src/libs/recommendation/impl/features/FeaturesClassifier.hpp:94 | an id is returned iff some given cell of the matrix holds it |
| Recommendation.EmptyMatrix | src/libs/recommendation/impl/features/FeaturesClassifier.hpp:85 | a default matrix is well formed and has no cell |
| Recommendation.ReverseIndex | src/libs/recommendation/impl/features/FeaturesClassifier.hpp:84-89 | the matrix built from a forward index on the network's grid has the grid's size, and a cell holds an id iff the id is indexed at that cell |
| Recommendation.LookupFindsQueryIds | src/libs/recommendation/impl/features/FeaturesClassifier.hpp:93-94 | through a consistent reverse index, an indexed query id is found again in its own cells |
| Recommendation.LookupSharesACell | src/libs/recommendation/impl/features/FeaturesClassifier.hpp:93-94 | through a consistent reverse index, every id found shares a cell with some query id |
| Recommendation.Expand | src/libs/recommendation/impl/features/FeaturesClassifier.hpp:102-103 | widening a set of cells by the network keeps every original cell |
| Recommendation.ExpansionOnGrid | src/libs/recommendation/impl/features/FeaturesClassifier.hpp:96-99 | widening cells of an index stays on the matrix, so the matrix lookup is always defined |
| Recommendation.SimilarCandidates | src/libs/recommendation/impl/features/FeaturesClassifier.hpp:96-99 | the ids held by the widened cells of the query; empty when no query id is indexed |
| Recommendation.CandidatesMonotonic | src/libs/recommendation/impl/features/FeaturesClassifier.hpp:96-99 | more query ids never give fewer candidates |
| Recommendation.ObjectIsItsOwnCandidate | src/libs/recommendation/impl/features/FeaturesClassifier.hpp:96-99 | an indexed object that occupies a cell is among its own candidates |
| Recommendation.GroupPositions | src/libs/recommendation/impl/features/FeaturesClassifier.hpp:105-109 | a group (release, or artist in one role) occupies exactly the cells of its member tracks |
| Recommendation.GroupOnGrid | src/libs/recommendation/impl/features/FeaturesClassifier.hpp:105-109 | groups of tracks on the grid occupy only cells of the grid |
| Recommendation.AllRoles | src/libs/recommendation/impl/features/FeaturesClassifier.hpp:105-106 | the single artist forward index holds a cell for an artist iff the artist has it in some link type |
| Recommendation.ArtistMatrices | src/libs/recommendation/impl/features/FeaturesClassifier.hpp:105-106 | one reverse index per link type, each on the network's grid and each holding an artist at a cell iff that link type places the artist there |
| Recommendation.ArtistIndexValid | src/libs/recommendation/impl/features/FeaturesClassifier.hpp:105-106 | each per-link-type artist matrix lies on the grid and lists an artist only at cells of its forward index |
| Recommendation.BuildGeneration | src/libs/recommendation/impl/features/FeaturesClassifier.hpp:87-89 | the indices derived from a network, its median and the track positions form a valid generation holding that network, median and track index; each release occupies the cells of its tracks; the artist forward index is the union over link types of each artist's track cells; each link type's matrix is the reverse of that link type's artist cells |
| Recommendation.FeaturesClassifier.constructor | src/libs/recommendation/impl/features/FeaturesClassifier.hpp:101-112 | a new classifier is not cancelled, holds no network, has a zero distance median and empty indices |
| Recommendation.FeaturesClassifier.GetName | src/libs/recommendation/impl/features/FeaturesClassifier.hpp:60 | the name is always "Features" |
| Recommendation.FeaturesClassifier.RequestCancelLoad | src/libs/recommendation/impl/features/FeaturesClassifier.hpp:63 | sets the cancellation flag and changes no other field |
| Recommendation.FeaturesClassifier.Load | src/libs/recommendation/impl/features/FeaturesClassifier.hpp:62 | succeeds with the cached generation unless reload is forced, else, unless cancelled or training failed, with the generation built from the trained network and the release and artist membership; on success the whole generation is replaced, on failure nothing changes; the indices stay consistent |
| Recommendation.FeaturesClassifier.Install | src/libs/recommendation/impl/features/FeaturesClassifier.hpp:62 | a successful load replaces every index, the network and the median at once, keeps the cancellation flag, and leaves the classifier consistent |
| Recommendation.FeaturesClassifier.GetSimilarObjects | src/libs/recommendation/impl/features/FeaturesClassifier.hpp:96-99 | const; returns a set drawn from the candidates of the query; empty when no query id is indexed |
| Recommendation.FeaturesClassifier.GetSimilarTracks | src/libs/recommendation/impl/features/FeaturesClassifier.hpp:66 | const; a subset of the track candidates; empty for tracks that are not indexed |
| Recommendation.FeaturesClassifier.GetSimilarTracksFromTrackList | src/libs/recommendation/impl/features/FeaturesClassifier.hpp:65 | const; the track query on the list's tracks; an unknown list, or one with no indexed track, yields nothing |
| Recommendation.FeaturesClassifier.GetSimilarReleases | src/libs/recommendation/impl/features/FeaturesClassifier.hpp:67 | const; a subset of the release candidates; empty for a release that is not indexed |
| Recommendation.FeaturesClassifier.GetSimilarArtists | src/libs/recommendation/impl/features/FeaturesClassifier.hpp:68-71 | const; drawn from the candidates of the requested link types that have a matrix; empty when none of them has one (in particular for no link type) or the artist is not indexed; the artist map is never extended |
| Recommendation.DefaultClassifierFindsNothing | src/libs/recommendation/impl/features/FeaturesClassifier.hpp:101-112 | a freshly constructed classifier answers track, track-list, release and artist queries with nothing |

## Left out

- Recommendation.FeaturesClassifier.GetSimilarObjects: the header shows no body. The model promises only that the result is drawn from the candidates. Dropping the query's own ids, the `maxCount` bound and the order in which candidates are kept are not modelled.
- Recommendation.FeaturesClassifier.GetSimilarTracks, Recommendation.FeaturesClassifier.GetSimilarTracksFromTrackList, Recommendation.FeaturesClassifier.GetSimilarReleases, Recommendation.FeaturesClassifier.GetSimilarArtists: weaker for the same reason, since each delegates to `GetSimilarObjects`.
- Recommendation.FeaturesClassifier.GetSimilarArtists: the header does not show how per-link-type results are combined. The model takes their union.
- Recommendation.Expand: the neighbour expansion by the learned distance median is abstract. The network carries, for each cell, the cells within that distance, and the model does not compute them from reference vectors.
- Recommendation.FeaturesClassifier.Load: the cache, training and its outcome are parameters. The source's body is not shown, so whether a load clears the cancellation flag is unknown; the model never clears it.
- Recommendation.FeaturesClassifier.Load: a cached generation is taken to be consistent, as it was written from a loaded one; reading and checking the cache is not modelled. A failed training run is `None`, without telling the reasons apart.
- Recommendation.BuildGeneration: the body of the index-building `load` overload is not shown. Release and artist membership come from the database session and are parameters here.
- `loadFromTraining`, `loadFromCache`, `toCache`, `SOM::Network`, `DataNormalizer`, the progress callback and `getDefaultTrainFeatureSettings`: bodies or types not shown. They involve floating-point training, random initialisation and serialisation.
- `setFeaturesFetchFunc` and the process-wide fetch function: a database read behind a global hook. The database session argument of every query is dropped.
- Threads: the cross-thread cancellation flag is a plain boolean field.
- `networkRefVectorsDistanceMedian` is a `real`, not a `double`. `sampleCountPerNeuron` is a `real`, not a `float`.
- `SOM::Matrix` is not part of this model. The matrix is assumed to be stored as rows indexed by `y`, and reading a cell requires the position to be on the grid.
- `TrackArtistLinkType`: only `Artist` and `ReleaseArtist` are named; the other roles are a numbered case.
- Utils.CollectOccurrences: the ordered map is walked in an unspecified key order, not in ascending key order. The sort that follows is not stable, so the final order among equal counts is unspecified either way. No tie order is claimed.
- Utils.CountOccurrences: elements are told apart by equality. The source's ordered map merges elements that tie under `<` and keeps the first one met, so the model's one-element-per-distinct-value promise matches the source only for element types whose `<` agrees with `==`.
- Utils.CountOccurrences: counts are unbounded naturals. `std::size_t` overflow cannot occur for a range that fits in memory.
- Utils.Clamp: the source returns a reference to one of its by-value parameters, which dangles. The model returns the value.
- `readAs`: its behaviour is that of the standard stream extraction operator, a library call.
- `shuffleContainer`, `fillRandom`, `pickRandom`: clock- and device-seeded randomness.
- `readList`, `splitString`, `joinStrings`, `stringTrim`, `stringTrimEnd`, `bufferToString`, `replaceInString`, `stringFromHex`: declared only, with no bodies.
- `src/lms/ui/explore/ArtistView.cpp`: widget and template binding, database transactions and service calls. It is not part of this model.
