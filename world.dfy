/** The world state engine: compare-and-swap block and liquid updates over a
    chunked voxel world, light propagation on every committed block change,
    dirty marking, change notification, and total read accessors. */
module World {
  import opened WorldTypes
  import opened Listeners

  class WorldProviderCore {
    // Collaborators, fixed when the engine is built. They stand for code
    // this model does not contain: the chunk coordinate of a block
    // position, the chunks the chunk provider holds, whether it can build a
    // view of a given radius around a block, the comparison of how two
    // block types let light through, and the light propagator.
    const chunkOf: Pos -> ChunkPos
    const loaded: set<ChunkPos>
    const viewReady: (Pos, nat) -> bool
    const comparePropagation: (Block, Block) -> PropagationComparison
    const propagate: (map<Pos, Block>, map<Pos, Light>, map<Pos, Light>, Pos, Block, Block) -> Propagation

    // Chunk storage, keyed by world position. A position missing from a map
    // holds what fresh chunk storage holds: air, no light, no liquid.
    var blocks: map<Pos, Block>
    var liquids: map<Pos, LiquidData>
    var light: map<Pos, Light>
    var sun: map<Pos, Light>

    // The listener registry, in registration order, duplicates kept.
    var listeners: seq<ListenerId>

    // What the engine has done to its collaborators, oldest first: the
    // views it asked for, the changes it handed to the light propagator,
    // the dirty marks it set and the listener calls it made.
    var viewRequests: seq<ViewRequest>
    var propagations: seq<Change>
    var dirty: seq<DirtyMark>
    var notified: seq<Notification>

    /** A view around a block always contains that block's own chunk. */
    ghost predicate Valid()
    {
      forall p: Pos, r: nat :: viewReady(p, r) ==> chunkOf(p) in loaded
    }

    constructor (chunkOf: Pos -> ChunkPos, loaded: set<ChunkPos>, viewReady: (Pos, nat) -> bool,
                 comparePropagation: (Block, Block) -> PropagationComparison,
                 propagate: (map<Pos, Block>, map<Pos, Light>, map<Pos, Light>, Pos, Block, Block) -> Propagation,
                 blocks: map<Pos, Block>, liquids: map<Pos, LiquidData>,
                 light: map<Pos, Light>, sun: map<Pos, Light>)
      requires forall p: Pos, r: nat :: viewReady(p, r) ==> chunkOf(p) in loaded
      ensures Valid()
      ensures this.chunkOf == chunkOf && this.loaded == loaded && this.viewReady == viewReady
      ensures this.comparePropagation == comparePropagation && this.propagate == propagate
      ensures this.blocks == blocks && this.liquids == liquids && this.light == light && this.sun == sun
      ensures listeners == [] && viewRequests == [] && propagations == [] && dirty == [] && notified == []
    {
      this.chunkOf := chunkOf;
      this.loaded := loaded;
      this.viewReady := viewReady;
      this.comparePropagation := comparePropagation;
      this.propagate := propagate;
      this.blocks := blocks;
      this.liquids := liquids;
      this.light := light;
      this.sun := sun;
      listeners := [];
      viewRequests := [];
      propagations := [];
      dirty := [];
      notified := [];
    }

    // ----- chunk storage as a loaded chunk presents it -----

    function StoredBlock(p: Pos): Block
      reads this
    {
      if p in blocks then blocks[p] else AIR
    }

    function StoredLiquid(p: Pos): LiquidData
      reads this
    {
      if p in liquids then liquids[p] else NO_LIQUID
    }

    function StoredLight(p: Pos): Light
      reads this
    {
      if p in light then light[p] else 0
    }

    function StoredSunlight(p: Pos): Light
      reads this
    {
      if p in sun then sun[p] else 0
    }

    /** True when p is inside the world and its chunk is loaded: the only
        positions whose reads reach chunk storage. */
    predicate Readable(p: Pos)
      reads this
    {
      InHeight(p) && chunkOf(p) in loaded
    }

    // ----- read accessors -----

    /** The block at p; air above or below the world and in unloaded chunks. */
    function GetBlock(p: Pos): (b: Block)
      reads this
      ensures !InHeight(p) ==> b == AIR
      ensures chunkOf(p) !in loaded ==> b == AIR
      ensures Readable(p) ==> b == StoredBlock(p)
    {
      if !InHeight(p) then AIR
      else if chunkOf(p) in loaded then StoredBlock(p)
      else AIR
    }

    /** The block light at p; 0 above or below the world and in unloaded
        chunks. */
    function GetLight(p: Pos): (l: Light)
      reads this
      ensures !InHeight(p) ==> l == 0
      ensures chunkOf(p) !in loaded ==> l == 0
      ensures Readable(p) ==> l == StoredLight(p)
    {
      if !InHeight(p) then 0
      else if chunkOf(p) in loaded then StoredLight(p)
      else 0
    }

    /** The sunlight at p; 0 above or below the world and in unloaded chunks. */
    function GetSunlight(p: Pos): (l: Light)
      reads this
      ensures !InHeight(p) ==> l == 0
      ensures chunkOf(p) !in loaded ==> l == 0
      ensures Readable(p) ==> l == StoredSunlight(p)
    {
      if !InHeight(p) then 0
      else if chunkOf(p) in loaded then StoredSunlight(p)
      else 0
    }

    /** The light a viewer sees at p: the brighter of sunlight and block
        light, never their sum; 0 outside the world and in unloaded chunks.
        As both channels are at most MAX_LIGHT the byte result cannot wrap. */
    function GetTotalLight(p: Pos): (l: Light)
      reads this
      ensures l == Max(GetSunlight(p), GetLight(p))
      ensures l >= GetSunlight(p) && l >= GetLight(p)
      ensures !Readable(p) ==> l == 0
    {
      if !InHeight(p) then 0
      else if chunkOf(p) in loaded then Max(StoredSunlight(p), StoredLight(p))
      else 0
    }

    /** The liquid at p; the default liquid state above or below the world
        and in unloaded chunks. */
    function GetLiquid(p: Pos): (d: LiquidData)
      reads this
      ensures !InHeight(p) ==> d == NO_LIQUID
      ensures chunkOf(p) !in loaded ==> d == NO_LIQUID
      ensures Readable(p) ==> d == StoredLiquid(p)
    {
      if !InHeight(p) then NO_LIQUID
      else if chunkOf(p) in loaded then StoredLiquid(p)
      else NO_LIQUID
    }

    // ----- listener registry -----

    /** Appends the listener; registering it again keeps both entries. */
    method RegisterListener(l: ListenerId)
      modifies this`listeners
      ensures listeners == old(listeners) + [l]
    {
      listeners := listeners + [l];
    }

    /** Removes the first registration of the listener, keeping the order of
        the others; an unregistered listener leaves the registry as it was. */
    method UnregisterListener(l: ListenerId)
      modifies this`listeners
      ensures listeners == RemoveFirst(old(listeners), l)
    {
      listeners := RemoveFirst(listeners, l);
    }

    /** Calls every registered listener once per registration, in registry
        order, with (p, newType, oldType). */
    method NotifyBlockChanged(p: Pos, newType: Block, oldType: Block)
      modifies this`notified
      ensures notified == old(notified) + NotificationsFor(listeners, p, newType, oldType)
    {
      for i := 0 to |listeners|
        invariant notified == old(notified) + NotificationsFor(listeners[..i], p, newType, oldType)
      {
        NotificationsForAppend(listeners[..i], listeners[i], p, newType, oldType);
        assert listeners[..i + 1] == listeners[..i] + [listeners[i]];
        notified := notified + [Notification(listeners[i], p, newType, oldType)];
      }
      assert listeners[..|listeners|] == listeners;
    }

    // ----- block mutation -----

    /** The new state after p was set to newType under a view, with
        `previous` as the old block: the block is written, the propagator
        sees the written world and its light becomes the world's, the
        region it affected is marked dirty (only p's neighbourhood when that
        region is empty), and every listener is called in order. Nothing
        else changes. */
    twostate predicate Committed(p: Pos, newType: Block, previous: Block)
      reads this
    {
      var r := propagate(old(blocks)[p := newType], old(light), old(sun), p, newType, previous);
      && blocks == old(blocks)[p := newType]
      && light == r.light
      && sun == r.sun
      && propagations == old(propagations) + [Change(p, newType, previous)]
      && dirty == old(dirty) + [if r.affected.IsEmpty() then AroundBlock(p) else AroundRegion(r.affected)]
      && notified == old(notified) + NotificationsFor(listeners, p, newType, previous)
      && liquids == old(liquids)
      && listeners == old(listeners)
    }

    /** Nothing the block operations write has changed. */
    twostate predicate BlocksUntouched()
      reads this
    {
      && blocks == old(blocks)
      && light == old(light)
      && sun == old(sun)
      && propagations == old(propagations)
      && dirty == old(dirty)
      && notified == old(notified)
      && liquids == old(liquids)
      && listeners == old(listeners)
    }

    /** The write, propagation, dirty marking and notification that both
        block setters perform once they hold a view. */
    method CommitBlock(p: Pos, newType: Block, previous: Block)
      modifies this
      ensures Committed(p, newType, previous)
      ensures viewRequests == old(viewRequests)
    {
      blocks := blocks[p := newType];
      var affected := propagate(blocks, light, sun, p, newType, previous);
      propagations := propagations + [Change(p, newType, previous)];
      light := affected.light;
      sun := affected.sun;
      if affected.affected.IsEmpty() {
        dirty := dirty + [AroundBlock(p)];
      } else {
        dirty := dirty + [AroundRegion(affected.affected)];
      }
      NotifyBlockChanged(p, newType, previous);
    }

    /** Compare-and-swap of one block. Setting a block to the type it is
        said to have is a success that touches nothing, not even a view.
        Otherwise a view is requested whose radius depends on whether the
        change alters light; the change commits only when that view is
        available and the block at p is still oldType, and it then reports
        success. */
    method SetBlock(p: Pos, newType: Block, oldType: Block) returns (ok: bool)
      requires Valid()
      modifies this
      ensures newType == oldType ==> ok && BlocksUntouched() && viewRequests == old(viewRequests)
      ensures newType != oldType ==>
        viewRequests == old(viewRequests) + [ViewRequest(p, ViewRadius(comparePropagation(newType, oldType), newType, oldType))]
      ensures newType != oldType ==>
        (ok <==> viewReady(p, ViewRadius(comparePropagation(newType, oldType), newType, oldType)) && old(StoredBlock(p)) == oldType)
      ensures newType != oldType && ok ==> Committed(p, newType, oldType)
      ensures !ok ==> BlocksUntouched()
      ensures newType != oldType && ok && InHeight(p) ==> GetBlock(p) == newType
      ensures forall q :: q != p ==> GetBlock(q) == old(GetBlock(q))
    {
      if newType == oldType {
        return true;
      }
      var radius := ViewRadius(comparePropagation(newType, oldType), newType, oldType);
      viewRequests := viewRequests + [ViewRequest(p, radius)];
      if !viewReady(p, radius) {
        return false;
      }
      var current := StoredBlock(p);
      if current != oldType {
        return false;
      }
      CommitBlock(p, newType, oldType);
      return true;
    }

    /** Unconditional set of one block. It always asks for the large view;
        when that view is available the block is written whatever it was,
        and the block read just before the write is what the propagator and
        the listeners see as the old block. Without a view nothing else
        changes. */
    method SetBlockForced(p: Pos, newType: Block)
      requires Valid()
      modifies this
      ensures viewRequests == old(viewRequests) + [ViewRequest(p, MAX_LIGHT + 1)]
      ensures viewReady(p, MAX_LIGHT + 1) ==> Committed(p, newType, old(StoredBlock(p)))
      ensures !viewReady(p, MAX_LIGHT + 1) ==> BlocksUntouched()
      ensures viewReady(p, MAX_LIGHT + 1) && InHeight(p) ==> GetBlock(p) == newType
      ensures forall q :: q != p ==> GetBlock(q) == old(GetBlock(q))
    {
      viewRequests := viewRequests + [ViewRequest(p, MAX_LIGHT + 1)];
      if viewReady(p, MAX_LIGHT + 1) {
        var current := StoredBlock(p);
        CommitBlock(p, newType, current);
      }
    }

    /** Batch updates are declared but not implemented: they always report
        failure and change nothing. */
    method SetBlocks(updates: seq<BlockUpdate>) returns (ok: bool)
      ensures !ok
    {
      ok := false;
    }

    // ----- liquid mutation -----

    /** Compare-and-swap of the liquid at one block, within its own chunk:
        it succeeds exactly when that chunk is loaded and the liquid there
        equals oldState, and only then does the liquid become newState. */
    method SetLiquid(p: Pos, newState: LiquidData, oldState: LiquidData) returns (ok: bool)
      modifies this`liquids
      ensures ok <==> chunkOf(p) in loaded && old(StoredLiquid(p)) == oldState
      ensures ok ==> liquids == old(liquids)[p := newState]
      ensures !ok ==> liquids == old(liquids)
      ensures ok && InHeight(p) ==> GetLiquid(p) == newState
      ensures forall q :: q != p ==> GetLiquid(q) == old(GetLiquid(q))
    {
      if chunkOf(p) in loaded {
        var current := StoredLiquid(p);
        if current == oldState {
          liquids := liquids[p := newState];
          return true;
        }
      }
      return false;
    }
  }
}
