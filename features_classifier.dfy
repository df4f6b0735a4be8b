/**
 * The index and query layer of the feature-based recommendation classifier.
 *
 * A trained self-organizing map places every track on a cell of a grid.
 * For each kind of object (tracks, releases, and artists per link type) the
 * classifier keeps a forward index (object id to the cells it occupies) and a
 * reverse index (a grid whose cells hold the ids placed there). A similarity
 * query maps the query ids to their cells, widens those cells to the cells
 * the network deems close, and reads the ids living there.
 *
 * The network itself is abstract: its grid size and, for each cell, the cells
 * within its learned distance scale.
 */
module Recommendation {
  /** Database::IdType. */
  type Id = int

  datatype Option<T> = None | Some(value: T)

  /** The role an artist plays on a track. Only the two roles below are named in this model. */
  datatype TrackArtistLinkType = Artist | ReleaseArtist | OtherLinkType(code: nat)

  /** SOM::Position: a cell of the grid. */
  datatype Position = Position(x: nat, y: nat)

  /** ObjectPositions: each object id with the set of cells it occupies. */
  type ObjectPositions = map<Id, set<Position>>

  /** A cell lies on a width-by-height grid. */
  predicate OnGrid(p: Position, width: nat, height: nat)
  {
    p.x < width && p.y < height
  }

  /** Every cell of a forward index lies on a width-by-height grid. */
  ghost predicate IndexOnGrid(objectPositions: ObjectPositions, width: nat, height: nat)
  {
    forall id, p :: id in objectPositions && p in objectPositions[id] ==> OnGrid(p, width, height)
  }

  /**
   * MatrixOfObjects: a width-by-height grid whose cells hold sets of ids,
   * stored as `height` rows of `width` cells.
   */
  datatype MatrixOfObjects = MatrixOfObjects(width: nat, height: nat, rows: seq<seq<set<Id>>>)
  {
    ghost predicate Valid()
    {
      |rows| == height && forall y :: 0 <= y < |rows| ==> |rows[y]| == width
    }

    function Get(p: Position): set<Id>
      requires Valid() && OnGrid(p, width, height)
    {
      rows[p.y][p.x]
    }
  }

  /** A default-constructed matrix: no cells. */
  function EmptyMatrix(): (m: MatrixOfObjects)
    ensures m.Valid() && forall p :: !OnGrid(p, m.width, m.height)
  {
    MatrixOfObjects(0, 0, [])
  }

  /**
   * SOM::Network, abstracted: the grid size and, for each cell, the cells
   * whose reference vectors lie within the learned distance scale of its own.
   */
  datatype Network = Network(width: nat, height: nat, neighbourhood: map<Position, set<Position>>)
  {
    ghost predicate Valid()
    {
      forall p, q :: p in neighbourhood && q in neighbourhood[p] ==> OnGrid(p, width, height) && OnGrid(q, width, height)
    }
  }

  /** FeatureSettings: the expected length of a feature's sub-vector and its weight. */
  datatype FeatureSettings = FeatureSettings(nbDimensions: nat, weight: real)

  type FeatureSettingsMap = map<string, FeatureSettings>

  /** TrainSettings: what a training run needs besides the corpus. */
  datatype TrainSettings = TrainSettings(iterationCount: nat, sampleCountPerNeuron: real, featureSettingsMap: FeatureSettingsMap)

  /** A default-initialised TrainSettings. */
  function DefaultTrainSettings(): (s: TrainSettings)
    ensures s.iterationCount == 10
    ensures s.sampleCountPerNeuron == 4.0
    ensures s.featureSettingsMap == map[]
  {
    TrainSettings(10, 4.0, map[])
  }

  /**
   * getMatchingRefVectorsPosition (static): the cells occupied by the given
   * ids. Ids missing from the index contribute nothing.
   */
  function GetMatchingRefVectorsPosition(ids: set<Id>, objectPositions: ObjectPositions): (r: set<Position>)
    ensures forall p :: p in r <==> exists id :: id in ids && id in objectPositions && p in objectPositions[id]
    ensures ids * objectPositions.Keys == {} ==> r == {}
  {
    var r := set id, p | id in ids && id in objectPositions && p in objectPositions[id] :: p;
    assert r != {} ==> ids * objectPositions.Keys != {} by {
      if r != {} {
        var p :| p in r;
        var id :| id in ids && id in objectPositions && p in objectPositions[id];
        assert id in ids * objectPositions.Keys;
      }
    }
    r
  }

  /**
   * getObjectsIds (static): the ids held by the given cells of the matrix.
   */
  function GetObjectsIds(positionSet: set<Position>, objectsMap: MatrixOfObjects): (r: set<Id>)
    requires objectsMap.Valid()
    requires forall p :: p in positionSet ==> OnGrid(p, objectsMap.width, objectsMap.height)
    ensures forall id :: id in r <==> exists p :: p in positionSet && id in objectsMap.Get(p)
  {
    set p, id | p in positionSet && id in objectsMap.Get(p) :: id
  }

  /**
   * The matrix is the reverse of the forward index: a cell holds exactly the
   * ids whose positions include that cell.
   */
  ghost predicate ReverseOf(objectPositions: ObjectPositions, objectsMap: MatrixOfObjects)
  {
    && objectsMap.Valid()
    && IndexOnGrid(objectPositions, objectsMap.width, objectsMap.height)
    && forall p, id :: OnGrid(p, objectsMap.width, objectsMap.height) ==>
         (id in objectsMap.Get(p) <==> id in objectPositions && p in objectPositions[id])
  }

  /**
   * The reverse index built from a forward index on a width-by-height grid.
   */
  function ReverseIndex(network: Network, objectPositions: ObjectPositions): (m: MatrixOfObjects)
    requires IndexOnGrid(objectPositions, network.width, network.height)
    ensures m.width == network.width && m.height == network.height
    ensures ReverseOf(objectPositions, m)
  {
    var width, height := network.width, network.height;
    var m := MatrixOfObjects(width, height,
      seq(height, y requires 0 <= y < height =>
        seq(width, x requires 0 <= x < width =>
          set id | id in objectPositions && Position(x, y) in objectPositions[id])));
    assert forall p :: OnGrid(p, m.width, m.height) ==> m.Get(p) == set id | id in objectPositions && p in objectPositions[id];
    assert IndexOnGrid(objectPositions, m.width, m.height) by {
      forall id, p | id in objectPositions && p in objectPositions[id]
        ensures OnGrid(p, m.width, m.height)
      {
        assert OnGrid(p, network.width, network.height);
      }
    }
    m
  }

  /**
   * The cells of `positions` widened by the network: each cell together with
   * the cells within the learned distance scale of it.
   */
  function Expand(network: Network, positions: set<Position>): (r: set<Position>)
    ensures positions <= r
  {
    positions + set p, q | p in positions && p in network.neighbourhood && q in network.neighbourhood[p] :: q
  }

  /**
   * A forward index and its matrix can be searched with the network: the
   * matrix is well formed and every cell of the index, and every cell the
   * network may widen to, lies on it.
   */
  ghost predicate Searchable(network: Network, objectsMap: MatrixOfObjects, objectPositions: ObjectPositions)
  {
    && network.Valid()
    && objectsMap.Valid()
    && objectsMap.width == network.width && objectsMap.height == network.height
    && IndexOnGrid(objectPositions, objectsMap.width, objectsMap.height)
  }

  /**
   * The ids a similarity query for `ids` may draw from: those held by the
   * cells the query ids occupy, widened by the network. Empty when none of
   * the ids is indexed.
   */
  function SimilarCandidates(network: Network, ids: set<Id>, objectsMap: MatrixOfObjects, objectPositions: ObjectPositions): (r: set<Id>)
    requires Searchable(network, objectsMap, objectPositions)
    ensures ids * objectPositions.Keys == {} ==> r == {}
  {
    var positions := GetMatchingRefVectorsPosition(ids, objectPositions);
    if positions == {} then {}
    else
      ExpansionOnGrid(network, objectsMap, objectPositions, positions);
      GetObjectsIds(Expand(network, positions), objectsMap)
  }

  /** Widening cells of an index never leaves the grid. */
  lemma ExpansionOnGrid(network: Network, objectsMap: MatrixOfObjects, objectPositions: ObjectPositions, positions: set<Position>)
    requires Searchable(network, objectsMap, objectPositions)
    requires positions <= GetMatchingRefVectorsPosition(objectPositions.Keys, objectPositions)
    ensures forall q :: q in Expand(network, positions) ==> OnGrid(q, objectsMap.width, objectsMap.height)
  {
  }

  /** Unknown ids change nothing in the cells a query starts from. */
  lemma MatchingIgnoresUnknownIds(ids: set<Id>, objectPositions: ObjectPositions)
    ensures GetMatchingRefVectorsPosition(ids, objectPositions)
         == GetMatchingRefVectorsPosition(ids * objectPositions.Keys, objectPositions)
  {
  }

  /** The cells of a union of ids are the union of their cells. */
  lemma MatchingDistributesOverUnion(ids1: set<Id>, ids2: set<Id>, objectPositions: ObjectPositions)
    ensures GetMatchingRefVectorsPosition(ids1 + ids2, objectPositions)
         == GetMatchingRefVectorsPosition(ids1, objectPositions) + GetMatchingRefVectorsPosition(ids2, objectPositions)
  {
  }

  /**
   * Through a consistent reverse index, every indexed id that occupies a cell
   * is found again among the ids of its own cells.
   */
  lemma LookupFindsQueryIds(ids: set<Id>, objectPositions: ObjectPositions, objectsMap: MatrixOfObjects, id: Id)
    requires ReverseOf(objectPositions, objectsMap)
    requires id in ids && id in objectPositions && objectPositions[id] != {}
    ensures id in GetObjectsIds(GetMatchingRefVectorsPosition(ids, objectPositions), objectsMap)
  {
    var p :| p in objectPositions[id];
    assert p in GetMatchingRefVectorsPosition(ids, objectPositions);
    assert id in objectsMap.Get(p);
  }

  /**
   * Through a consistent reverse index, every id read from the cells of a
   * query shares one of those cells with some query id.
   */
  lemma LookupSharesACell(ids: set<Id>, objectPositions: ObjectPositions, objectsMap: MatrixOfObjects, found: Id)
    requires ReverseOf(objectPositions, objectsMap)
    requires found in GetObjectsIds(GetMatchingRefVectorsPosition(ids, objectPositions), objectsMap)
    ensures found in objectPositions
    ensures exists id, p :: id in ids && id in objectPositions && p in objectPositions[id] && p in objectPositions[found]
  {
  }

  /** Asking about more ids never yields fewer candidates. */
  lemma CandidatesMonotonic(network: Network, ids1: set<Id>, ids2: set<Id>, objectsMap: MatrixOfObjects, objectPositions: ObjectPositions)
    requires Searchable(network, objectsMap, objectPositions)
    requires ids1 <= ids2
    ensures SimilarCandidates(network, ids1, objectsMap, objectPositions)
         <= SimilarCandidates(network, ids2, objectsMap, objectPositions)
  {
  }

  /**
   * With a consistent reverse index, an indexed object that occupies a cell
   * is always among its own candidates; this is why a query must drop its
   * own ids from the answer.
   */
  lemma ObjectIsItsOwnCandidate(network: Network, objectsMap: MatrixOfObjects, objectPositions: ObjectPositions, id: Id)
    requires Searchable(network, objectsMap, objectPositions)
    requires ReverseOf(objectPositions, objectsMap)
    requires id in objectPositions && objectPositions[id] != {}
    ensures id in SimilarCandidates(network, {id}, objectsMap, objectPositions)
  {
  }

  /**
   * The index of a group of objects (releases, or artists in one role): the
   * cells of a group are the cells of its member tracks.
   */
  function GroupPositions(members: map<Id, set<Id>>, trackPositions: ObjectPositions): (r: ObjectPositions)
    ensures r.Keys == members.Keys
    ensures forall g, p :: g in r && p in r[g] <==>
              g in members && exists t :: t in members[g] && t in trackPositions && p in trackPositions[t]
  {
    map g | g in members :: GetMatchingRefVectorsPosition(members[g], trackPositions)
  }

  /** Groups of tracks on the grid occupy only cells of the grid. */
  lemma GroupOnGrid(network: Network, members: map<Id, set<Id>>, trackPositions: ObjectPositions)
    requires IndexOnGrid(trackPositions, network.width, network.height)
    ensures IndexOnGrid(GroupPositions(members, trackPositions), network.width, network.height)
  {
  }

  /**
   * What a completed training run yields: the network, the median distance
   * between neighbouring reference vectors, and the cells of every track.
   */
  datatype TrainedNetwork = TrainedNetwork(network: Network, refVectorsDistanceMedian: real, trackPositions: ObjectPositions)
  {
    /** The network is well formed and every track lies on its grid. */
    ghost predicate Valid()
    {
      network.Valid() && IndexOnGrid(trackPositions, network.width, network.height)
    }
  }

  /**
   * One loaded generation: the network, its distance scale, and every index
   * built from it. A load replaces the whole generation at once.
   */
  datatype Generation = Generation(
    network: Network,
    refVectorsDistanceMedian: real,
    artistPositions: ObjectPositions,
    artistsMap: map<TrackArtistLinkType, MatrixOfObjects>,
    releasesMap: MatrixOfObjects,
    releasePositions: ObjectPositions,
    tracksMap: MatrixOfObjects,
    trackPositions: ObjectPositions)
  {
    /**
     * Tracks and releases have matching forward and reverse indices; the
     * artist reverse index of every link type lies on the grid and only
     * lists artists at cells their (all-roles) positions include.
     */
    ghost predicate Valid()
    {
      && Searchable(network, tracksMap, trackPositions)
      && ReverseOf(trackPositions, tracksMap)
      && Searchable(network, releasesMap, releasePositions)
      && ReverseOf(releasePositions, releasesMap)
      && forall lt :: lt in artistsMap ==>
           && Searchable(network, artistsMap[lt], artistPositions)
           && forall p, id :: OnGrid(p, artistsMap[lt].width, artistsMap[lt].height) && id in artistsMap[lt].Get(p) ==>
                id in artistPositions && p in artistPositions[id]
    }
  }

  /**
   * Builds a generation from a trained network and the track positions it
   * yields: releases and artists take the cells of their member tracks,
   * artists once per link type for the reverse index and over all link
   * types for the forward index.
   */
  function BuildGeneration(
    network: Network,
    refVectorsDistanceMedian: real,
    trackPositions: ObjectPositions,
    releaseTracks: map<Id, set<Id>>,
    artistTracks: map<TrackArtistLinkType, map<Id, set<Id>>>): (g: Generation)
    requires network.Valid()
    requires IndexOnGrid(trackPositions, network.width, network.height)
    ensures g.Valid()
    ensures g.network == network && g.refVectorsDistanceMedian == refVectorsDistanceMedian
    ensures g.trackPositions == trackPositions
    ensures g.releasePositions == GroupPositions(releaseTracks, trackPositions)
    ensures g.artistPositions == AllRoles(ArtistPositionsPerLinkType(artistTracks, trackPositions))
    ensures g.artistsMap.Keys == artistTracks.Keys
    ensures forall lt :: lt in artistTracks ==> ReverseOf(GroupPositions(artistTracks[lt], trackPositions), g.artistsMap[lt])
  {
    var releasePositions := GroupPositions(releaseTracks, trackPositions);
    GroupOnGrid(network, releaseTracks, trackPositions);
    var perLinkType := ArtistPositionsPerLinkType(artistTracks, trackPositions);
    forall lt | lt in perLinkType
      ensures IndexOnGrid(perLinkType[lt], network.width, network.height)
    {
      GroupOnGrid(network, artistTracks[lt], trackPositions);
    }
    var artistPositions := AllRoles(perLinkType);
    var artistsMap := ArtistMatrices(network, perLinkType);
    ArtistIndexValid(network, perLinkType, artistsMap);
    Generation(
      network, refVectorsDistanceMedian,
      artistPositions, artistsMap,
      ReverseIndex(network, releasePositions), releasePositions,
      ReverseIndex(network, trackPositions), trackPositions)
  }

  /** The cells of each artist in each link type: the cells of its tracks in that role. */
  function ArtistPositionsPerLinkType(artistTracks: map<TrackArtistLinkType, map<Id, set<Id>>>, trackPositions: ObjectPositions)
    : (r: map<TrackArtistLinkType, ObjectPositions>)
    ensures r.Keys == artistTracks.Keys
    ensures forall lt :: lt in r ==> r[lt] == GroupPositions(artistTracks[lt], trackPositions)
  {
    map lt | lt in artistTracks :: GroupPositions(artistTracks[lt], trackPositions)
  }

  /**
   * One reverse index per link type, each on the network's grid and each the
   * reverse of that link type's forward index.
   */
  function ArtistMatrices(network: Network, perLinkType: map<TrackArtistLinkType, ObjectPositions>)
    : (m: map<TrackArtistLinkType, MatrixOfObjects>)
    requires forall lt :: lt in perLinkType ==> IndexOnGrid(perLinkType[lt], network.width, network.height)
    ensures m.Keys == perLinkType.Keys
    ensures forall lt :: lt in m ==>
              && m[lt].width == network.width && m[lt].height == network.height
              && ReverseOf(perLinkType[lt], m[lt])
  {
    map lt | lt in perLinkType :: ReverseIndex(network, perLinkType[lt])
  }

  /**
   * Reverse indices of each link type agree with the all-roles forward
   * index: they lie on the grid and list an artist only at its own cells.
   */
  lemma ArtistIndexValid(network: Network, perLinkType: map<TrackArtistLinkType, ObjectPositions>,
                         artistsMap: map<TrackArtistLinkType, MatrixOfObjects>)
    requires network.Valid()
    requires artistsMap.Keys == perLinkType.Keys
    requires forall lt :: lt in artistsMap ==>
               && artistsMap[lt].width == network.width && artistsMap[lt].height == network.height
               && ReverseOf(perLinkType[lt], artistsMap[lt])
    ensures forall lt :: lt in artistsMap ==>
              && Searchable(network, artistsMap[lt], AllRoles(perLinkType))
              && forall p, id :: OnGrid(p, artistsMap[lt].width, artistsMap[lt].height) && id in artistsMap[lt].Get(p) ==>
                   id in AllRoles(perLinkType) && p in AllRoles(perLinkType)[id]
  {
    var all := AllRoles(perLinkType);
    forall lt | lt in artistsMap
      ensures Searchable(network, artistsMap[lt], all)
      ensures forall p, id :: OnGrid(p, artistsMap[lt].width, artistsMap[lt].height) && id in artistsMap[lt].Get(p) ==>
                id in all && p in all[id]
    {
      var m := artistsMap[lt];
      assert ReverseOf(perLinkType[lt], m);
      forall id, p | id in all && p in all[id]
        ensures OnGrid(p, m.width, m.height)
      {
        var lt' :| lt' in perLinkType && id in perLinkType[lt'] && p in perLinkType[lt'][id];
        assert ReverseOf(perLinkType[lt'], artistsMap[lt']);
      }
      forall p, id | OnGrid(p, m.width, m.height) && id in m.Get(p)
        ensures id in all && p in all[id]
      {
        assert id in perLinkType[lt] && p in perLinkType[lt][id];
      }
    }
  }

  /** The forward index over all link types: an artist's cells in any role. */
  function AllRoles(perLinkType: map<TrackArtistLinkType, ObjectPositions>): (r: ObjectPositions)
    ensures forall lt, id, p :: lt in perLinkType && id in perLinkType[lt] && p in perLinkType[lt][id] ==>
              id in r && p in r[id]
    ensures forall id, p :: id in r && p in r[id] ==>
              exists lt :: lt in perLinkType && id in perLinkType[lt] && p in perLinkType[lt][id]
  {
    var ids := set lt, id | lt in perLinkType && id in perLinkType[lt] :: id;
    map id | id in ids :: set lt, p | lt in perLinkType && id in perLinkType[lt] && p in perLinkType[lt][id] :: p
  }

  /** FeaturesClassifier: the recommendation classifier built on a self-organizing map. */
  class FeaturesClassifier {
    var loadCancelled: bool
    var network: Option<Network>
    var networkRefVectorsDistanceMedian: real

    var artistPositions: ObjectPositions
    var artistsMap: map<TrackArtistLinkType, MatrixOfObjects>

    var releasesMap: MatrixOfObjects
    var releasePositions: ObjectPositions

    var tracksMap: MatrixOfObjects
    var trackPositions: ObjectPositions

    /** The fields hold the generation `g`. */
    ghost predicate Holds(g: Generation)
      reads this
    {
      && network == Some(g.network)
      && networkRefVectorsDistanceMedian == g.refVectorsDistanceMedian
      && artistPositions == g.artistPositions && artistsMap == g.artistsMap
      && releasesMap == g.releasesMap && releasePositions == g.releasePositions
      && tracksMap == g.tracksMap && trackPositions == g.trackPositions
    }

    /**
     * Either no network is loaded and every index is empty, or the fields
     * hold a valid generation.
     */
    ghost predicate Valid()
      reads this
    {
      if network.None? then
        && artistPositions == map[] && artistsMap == map[]
        && releasesMap == EmptyMatrix() && releasePositions == map[]
        && tracksMap == EmptyMatrix() && trackPositions == map[]
      else
        Generation(network.value, networkRefVectorsDistanceMedian,
                   artistPositions, artistsMap, releasesMap, releasePositions,
                   tracksMap, trackPositions).Valid()
    }

    /** A default-constructed classifier: not cancelled, no network, empty indices. */
    constructor ()
      ensures Valid()
      ensures !loadCancelled && network == None && networkRefVectorsDistanceMedian == 0.0
      ensures artistPositions == map[] && artistsMap == map[]
      ensures releasesMap == EmptyMatrix() && releasePositions == map[]
      ensures tracksMap == EmptyMatrix() && trackPositions == map[]
    {
      loadCancelled := false;
      network := None;
      networkRefVectorsDistanceMedian := 0.0;
      artistPositions := map[];
      artistsMap := map[];
      releasesMap := EmptyMatrix();
      releasePositions := map[];
      tracksMap := EmptyMatrix();
      trackPositions := map[];
    }

    /** getName: the name of this recommendation strategy. */
    method GetName() returns (name: string)
      ensures name == "Features"
    {
      name := "Features";
    }

    /** requestCancelLoad: arms the cancellation flag; nothing else changes. */
    method RequestCancelLoad()
      modifies this`loadCancelled
      ensures loadCancelled
    {
      loadCancelled := true;
    }

    /**
     * load: uses the compatible cached generation unless a reload is forced,
     * otherwise builds the indices from the outcome of training (`None` when
     * training failed: no data, mismatching dimensions). Training is
     * abandoned when cancellation was requested. On success the whole
     * generation is replaced at once; on failure nothing changes.
     */
    method Load(forceReload: bool, cached: Option<Generation>, trained: Option<TrainedNetwork>,
                releaseTracks: map<Id, set<Id>>, artistTracks: map<TrackArtistLinkType, map<Id, set<Id>>>)
      returns (ok: bool)
      requires Valid()
      requires cached.Some? ==> cached.value.Valid()
      requires trained.Some? ==> trained.value.Valid()
      modifies this
      ensures Valid()
      ensures loadCancelled == old(loadCancelled)
      ensures ok <==> (!forceReload && cached.Some?) || (!old(loadCancelled) && trained.Some?)
      ensures ok && !forceReload && cached.Some? ==> Holds(cached.value)
      ensures ok && (forceReload || cached.None?) ==>
                Holds(BuildGeneration(trained.value.network, trained.value.refVectorsDistanceMedian,
                                      trained.value.trackPositions, releaseTracks, artistTracks))
      ensures !ok ==> unchanged(this)
    {
      if !forceReload && cached.Some? {
        Install(cached.value);
        ok := true;
      } else if loadCancelled || trained.None? {
        ok := false;
      } else {
        var tn := trained.value;
        Install(BuildGeneration(tn.network, tn.refVectorsDistanceMedian, tn.trackPositions, releaseTracks, artistTracks));
        ok := true;
      }
    }

    /** Replaces the whole generation held by the fields with `g`. */
    method Install(g: Generation)
      requires g.Valid()
      modifies this
      ensures Valid() && Holds(g)
      ensures loadCancelled == old(loadCancelled)
    {
      network := Some(g.network);
      networkRefVectorsDistanceMedian := g.refVectorsDistanceMedian;
      artistPositions := g.artistPositions;
      artistsMap := g.artistsMap;
      releasesMap := g.releasesMap;
      releasePositions := g.releasePositions;
      tracksMap := g.tracksMap;
      trackPositions := g.trackPositions;
    }

    /**
     * getSimilarObjects (const): the objects similar to `ids` according to
     * one index pair. Only ids drawn from the candidates of the query are
     * returned; which of them, and how many, is not modelled.
     */
    method GetSimilarObjects(ids: set<Id>, objectsMap: MatrixOfObjects, objectPosition: ObjectPositions, maxCount: nat)
      returns (similar: set<Id>)
      requires network.None? ==> objectPosition == map[]
      requires network.Some? ==> Searchable(network.value, objectsMap, objectPosition)
      ensures network.Some? ==> similar <= SimilarCandidates(network.value, ids, objectsMap, objectPosition)
      ensures ids * objectPosition.Keys == {} ==> similar == {}
    {
      if network.None? {
        return {};
      }
      similar :| similar <= SimilarCandidates(network.value, ids, objectsMap, objectPosition);
    }

    /** getSimilarTracks (const). */
    method GetSimilarTracks(tracksId: set<Id>, maxCount: nat) returns (similar: set<Id>)
      requires Valid()
      ensures network.Some? ==> similar <= SimilarCandidates(network.value, tracksId, tracksMap, trackPositions)
      ensures tracksId * trackPositions.Keys == {} ==> similar == {}
    {
      similar := GetSimilarObjects(tracksId, tracksMap, trackPositions, maxCount);
    }

    /**
     * getSimilarTracksFromTrackList (const): the track list is resolved to
     * its tracks through `trackListTracks` (the database lookup), then the
     * track query runs on them. An unknown track list yields nothing.
     */
    method GetSimilarTracksFromTrackList(trackListTracks: map<Id, set<Id>>, trackListId: Id, maxCount: nat)
      returns (similar: set<Id>)
      requires Valid()
      ensures network.Some? && trackListId in trackListTracks ==>
                similar <= SimilarCandidates(network.value, trackListTracks[trackListId], tracksMap, trackPositions)
      ensures trackListId !in trackListTracks ==> similar == {}
      ensures trackListId in trackListTracks && trackListTracks[trackListId] * trackPositions.Keys == {} ==> similar == {}
    {
      var tracks := if trackListId in trackListTracks then trackListTracks[trackListId] else {};
      similar := GetSimilarTracks(tracks, maxCount);
    }

    /** getSimilarReleases (const). */
    method GetSimilarReleases(releaseId: Id, maxCount: nat) returns (similar: set<Id>)
      requires Valid()
      ensures network.Some? ==> similar <= SimilarCandidates(network.value, {releaseId}, releasesMap, releasePositions)
      ensures releaseId !in releasePositions ==> similar == {}
    {
      similar := GetSimilarObjects({releaseId}, releasesMap, releasePositions, maxCount);
    }

    /**
     * The candidates of an artist query: for every requested link type that
     * has a reverse index, the candidates through that index.
     */
    ghost function ArtistCandidates(artistId: Id, linkTypes: set<TrackArtistLinkType>): set<Id>
      reads this
      requires Valid() && network.Some?
    {
      set lt, id | lt in linkTypes && lt in artistsMap
                   && id in SimilarCandidates(network.value, {artistId}, artistsMap[lt], artistPositions) :: id
    }

    /**
     * getSimilarArtists (const): one query per requested link type, through
     * that link type's reverse index. A link type without an index
     * contributes nothing and is not added to the index.
     */
    method GetSimilarArtists(artistId: Id, linkTypes: set<TrackArtistLinkType>, maxCount: nat)
      returns (similar: set<Id>)
      requires Valid()
      ensures network.Some? ==> similar <= ArtistCandidates(artistId, linkTypes)
      ensures linkTypes * artistsMap.Keys == {} ==> similar == {}
      ensures artistId !in artistPositions ==> similar == {}
    {
      similar := {};
      var remaining := linkTypes;
      while remaining != {}
        invariant remaining <= linkTypes
        invariant network.Some? ==> similar <= ArtistCandidates(artistId, linkTypes - remaining)
        invariant (linkTypes - remaining) * artistsMap.Keys == {} ==> similar == {}
        invariant artistId !in artistPositions ==> similar == {}
        decreases remaining
      {
        var lt :| lt in remaining;
        ghost var done := linkTypes - remaining;
        if lt in artistsMap {
          var found := GetSimilarObjects({artistId}, artistsMap[lt], artistPositions, maxCount);
          if network.Some? {
            forall id | id in found
              ensures id in ArtistCandidates(artistId, done + {lt})
            {
              assert id in SimilarCandidates(network.value, {artistId}, artistsMap[lt], artistPositions);
            }
            assert ArtistCandidates(artistId, done) <= ArtistCandidates(artistId, done + {lt});
          }
          similar := similar + found;
        }
        remaining := remaining - {lt};
        assert linkTypes - remaining == done + {lt};
      }
    }
  }

  /** A freshly constructed classifier answers every query with nothing. */
  method DefaultClassifierFindsNothing(
    ids: set<Id>, trackListTracks: map<Id, set<Id>>, trackListId: Id, releaseId: Id,
    artistId: Id, linkTypes: set<TrackArtistLinkType>, maxCount: nat)
    returns (tracks: set<Id>, listTracks: set<Id>, releases: set<Id>, artists: set<Id>)
    ensures tracks == {} && listTracks == {} && releases == {} && artists == {}
  {
    var c := new FeaturesClassifier();
    tracks := c.GetSimilarTracks(ids, maxCount);
    listTracks := c.GetSimilarTracksFromTrackList(trackListTracks, trackListId, maxCount);
    releases := c.GetSimilarReleases(releaseId, maxCount);
    artists := c.GetSimilarArtists(artistId, linkTypes, maxCount);
  }
}
