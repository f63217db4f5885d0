/**
 * The images slice of the store: images indexed by their id, replaced
 * wholesale when a fetch succeeds.
 */
module ImagesDuck {
  import opened Wrappers
  import opened Dicts

  /** An image record; only the fields the slice looks at, plus its name. */
  datatype Image = Image(id: string, fileId: string, name: Option<string>)

  datatype ImagesState = ImagesState(byId: Dict<Image>)

  datatype ImagesAction =
    | FetchImages
    | FetchImagesSucceeded(images: seq<Image>)
    | FetchImagesFailed(error: string)

  function DefaultState(): (s: ImagesState)
    ensures s.byId == []
  {
    ImagesState([])
  }

  /** `images` indexed by id, in the reduce's order: a later image replaces an earlier one with the same id. */
  function ById(images: seq<Image>): Dict<Image> {
    if images == [] then []
    else
      var last := images[|images| - 1];
      Put(ById(images[..|images| - 1]), last.id, last)
  }

  function Ids(images: seq<Image>): set<string> {
    set i | 0 <= i < |images| :: images[i].id
  }

  /** The keys of the index are exactly the payload's ids. */
  lemma {:induction false} ByIdKeys(images: seq<Image>)
    ensures (set k | k in Keys(ById(images))) == Ids(images)
  {
    if images != [] {
      var prefix := images[..|images| - 1];
      var last := images[|images| - 1];
      ByIdKeys(prefix);
      assert Ids(images) == Ids(prefix) + {last.id} by {
        forall k | k in Ids(images) ensures k in Ids(prefix) + {last.id} {
          var i :| 0 <= i < |images| && images[i].id == k;
          if i < |images| - 1 {
            assert prefix[i] == images[i];
          }
        }
        forall k | k in Ids(prefix) ensures k in Ids(images) {
          var i :| 0 <= i < |prefix| && prefix[i].id == k;
          assert images[i] == prefix[i];
        }
      }
    }
  }

  /** An id maps to the last image in the payload that carries it. */
  lemma {:induction false} ByIdLastWins(images: seq<Image>, i: nat)
    requires i < |images|
    requires forall j :: i < j < |images| ==> images[j].id != images[i].id
    ensures Get(ById(images), images[i].id) == Some(images[i])
  {
    var prefix := images[..|images| - 1];
    if i < |images| - 1 {
      assert prefix[i] == images[i];
      forall j | i < j < |prefix| ensures prefix[j].id != prefix[i].id {
        assert prefix[j] == images[j];
      }
      ByIdLastWins(prefix, i);
    }
  }

  /** The slice's reducer; actions other than a successful fetch leave the state alone. */
  method Reduce(state: ImagesState, action: ImagesAction) returns (next: ImagesState)
    ensures action.FetchImagesSucceeded? ==> next == state.(byId := ById(action.images))
    ensures !action.FetchImagesSucceeded? ==> next == state
  {
    match action {
      case FetchImagesSucceeded(images) =>
        var byId: Dict<Image> := [];
        for i := 0 to |images|
          invariant byId == ById(images[..i])
        {
          assert images[..i + 1][..i] == images[..i];
          byId := Put(byId, images[i].id, images[i]);
        }
        assert images[..|images|] == images;
        next := state.(byId := byId);
      case _ =>
        next := state;
    }
  }

  /** `getImages`: the stored images, in key order. */
  function GetImages(state: ImagesState): (r: seq<Image>)
    ensures |r| == |state.byId|
    ensures forall i :: 0 <= i < |r| ==> Get(state.byId, state.byId[i].0) == Some(r[i])
  {
    var r := Values(state.byId);
    forall i | 0 <= i < |r| ensures Get(state.byId, state.byId[i].0) == Some(r[i]) {
      GetAt(state.byId, i);
    }
    r
  }
}
