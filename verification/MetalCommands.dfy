/** The Metal device's entry points, each shown to take the step of the ordering protocol. */
module MetalCommands {
  import opened Wrappers
  import opened MetalOrdering

  class MetalDevice {
    var renderTarget: Option<MetalTexture>
    var depthStencil: Option<MetalTexture>
    var isTargetChanged: bool
    var passColor: Option<MetalTexture>
    var passDepth: Option<MetalTexture>
    var textures: set<MetalTexture>
    var useSrgb: bool
    var commandBuffer: Option<Buffer>
    var inFlight: set<MetalTexture>
    var queue: seq<Cmd>
    var issued: seq<Cmd>
    ghost var known: set<MetalTexture>

    ghost predicate Valid()
      reads this, known
    {
      && inFlight <= known && ValueOf(renderTarget) <= known
      && Inv(St())
    }

    ghost function Pending(): set<MetalTexture>
      reads this, known
    {
      set t | t in known && t.hasPendingWrites
    }

    ghost function St(): State
      reads this, known
    {
      State(renderTarget, depthStencil, isTargetChanged, passColor, passDepth, textures, useSrgb,
            commandBuffer, inFlight, Pending(), queue, issued)
    }

    constructor ()
      ensures Valid() && known == {} && St() == Start
    {
      renderTarget, depthStencil, isTargetChanged, passColor, passDepth := None, None, false, None, None;
      textures, useSrgb, commandBuffer, inFlight, queue, issued, known := {}, false, None, {}, [], [], {};
    }

    method MakeTexture() returns (t: MetalTexture)
      requires Valid()
      modifies this`known
      ensures Valid() && fresh(t) && known == old(known) + {t} && St() == old(St())
    {
      t := new MetalTexture();
      known := known + {t};
      assert Pending() == old(Pending());
    }

    // ----- Setters

    method SetRenderTarget(tex: Option<MetalTexture>, zstencil: Option<MetalTexture>)
      requires Valid() && ValueOf(tex) <= known
      modifies this`renderTarget, this`depthStencil, this`isTargetChanged
      ensures Valid() && St() == Next(old(St()), Op.SetRenderTarget(tex, zstencil))
    {
      ghost var was := St();
      renderTarget := tex;
      if tex.Some? {
        isTargetChanged := true;
      }
      depthStencil := zstencil;
      if zstencil.Some? {
        isTargetChanged := true;
      }
      assert Pending() == was.pending;
      NextKeepsInv(was, Op.SetRenderTarget(tex, zstencil));
    }

    method EnableFramebufferSrgb(enable: bool)
      requires Valid()
      modifies this`useSrgb, this`isTargetChanged
      ensures Valid() && St() == Next(old(St()), EnableSrgb(enable))
    {
      ghost var was := St();
      if useSrgb != enable {
        useSrgb := enable;
        isTargetChanged := true;
      }
      assert Pending() == was.pending;
      NextKeepsInv(was, EnableSrgb(enable));
    }

    method BeginFrame()
      requires Valid()
      modifies this`useSrgb, this`renderTarget
      ensures Valid() && St() == Next(old(St()), Op.BeginFrame)
    {
      ghost var was := St();
      useSrgb := false;
      renderTarget := None;
      assert Pending() == was.pending;
      NextKeepsInv(was, Op.BeginFrame);
    }

    /** `chainTarget` is the chain's texture, or none if it had none and could not create one. */
    method LoadSwapChain(gamma: bool, chainTarget: Option<MetalTexture>)
      requires Valid() && ValueOf(chainTarget) <= known
      modifies this`useSrgb, this`renderTarget, this`depthStencil, this`isTargetChanged
      ensures Valid() && St() == Next(old(St()), Op.LoadSwapChain(gamma, chainTarget))
    {
      ghost var was := St();
      useSrgb := gamma;
      if chainTarget.Some? {
        renderTarget := chainTarget;
        depthStencil := None;
        isTargetChanged := true;
      }
      assert Pending() == was.pending;
      NextKeepsInv(was, Op.LoadSwapChain(gamma, chainTarget));
    }

    method LoadTextures(bound: set<MetalTexture>)
      requires Valid()
      modifies this`textures
      ensures Valid() && St() == Next(old(St()), Op.LoadTextures(bound))
    {
      ghost var was := St();
      textures := bound;
      assert Pending() == was.pending;
      NextKeepsInv(was, Op.LoadTextures(bound));
    }

    // ----- Command buffers

    method EnsureCommandBuffer(made: bool) returns (ok: bool)
      modifies this`commandBuffer
      ensures St() == Ensured(old(St()), made)
      ensures ok == commandBuffer.Some?
    {
      ghost var was := St();
      if commandBuffer.None? {
        if !made {
          return false;
        }
        commandBuffer := Some(Buffer([], false));
      }
      assert Pending() == was.pending;
      return true;
    }

    method FinishPendingCommands()
      requires inFlight <= known
      modifies this`commandBuffer, this`queue, this`inFlight, inFlight
      ensures St() == Finished(old(St()))
    {
      if commandBuffer.None? || commandBuffer.value.isCommitted {
        return;
      }
      queue := queue + commandBuffer.value.cmds;
      var rest := inFlight;
      while rest != {}
        invariant rest <= old(inFlight) == inFlight
        invariant queue == old(queue + commandBuffer.value.cmds)
        invariant forall t :: t in known ==>
          t.hasPendingWrites == (old(t.hasPendingWrites) && (t !in old(inFlight) || t in rest))
      {
        var t :| t in rest;
        t.hasPendingWrites := false;
        rest := rest - {t};
      }
      inFlight := {};
      commandBuffer := None;
      assert Pending() == old(Pending()) - old(inFlight);
    }

    method Mark(t: MetalTexture)
      requires t in known
      modifies this`inFlight, t
      ensures St() == Marked(old(St()), t)
    {
      t.hasPendingWrites := true;
      inFlight := inFlight + {t};
      assert Pending() == old(Pending()) + {t};
    }

    method Encode(inputs: set<Resource>, outputs: set<Resource>, tracked: set<MetalTexture>)
      requires commandBuffer.Some?
      modifies this`commandBuffer, this`issued
      ensures St() == Encoded(old(St()), inputs, outputs, tracked)
    {
      ghost var was := St();
      var c := Cmd(|issued|, inputs, outputs, tracked);
      commandBuffer := Some(commandBuffer.value.(cmds := commandBuffer.value.cmds + [c]));
      issued := issued + [c];
      assert Pending() == was.pending;
    }

    method CommitAtOnce(source: Resource, destination: Resource, whole: bool)
      modifies this`queue, this`issued
      ensures St() == Committed(old(St()), source, destination, whole)
    {
      ghost var was := St();
      var c := Cmd(|issued|, {source}, {destination}, {}, if whole then {} else {destination});
      queue, issued := queue + [c], issued + [c];
      assert Pending() == was.pending;
    }

    // ----- Rendering

    method Clear(loadsColor: bool, made: bool, fate: Fate) returns (ok: bool)
      requires Valid()
      modifies this, ValueOf(renderTarget)
      ensures Valid() && known == old(known) && St() == Next(old(St()), Op.Clear(loadsColor, made, fate))
      ensures ok == !Throws(old(St()), Op.Clear(loadsColor, made, fate))
    {
      hide Encoded, Inv;
      NextKeepsInv(St(), Op.Clear(loadsColor, made, fate));
      ok := EnsureCommandBuffer(made);
      if !ok || renderTarget.None? {
        return;
      }
      if fate == FailsUnmarked {
        return false;
      }
      Mark(renderTarget.value);
      if fate == FailsMarked {
        return false;
      }
      var color, depth := {Tex(renderTarget.value)}, TexOf(depthStencil);
      Encode((if loadsColor then color else {}) + depth, color + depth, {renderTarget.value});
    }

    method Draw(ready: bool, made: bool, fate: Fate) returns (ok: bool)
      requires Valid()
      modifies this, ValueOf(renderTarget)
      ensures Valid() && known == old(known) && St() == Next(old(St()), Op.Draw(ready, made, fate))
      ensures ok == !Throws(old(St()), Op.Draw(ready, made, fate))
    {
      hide Encoded, Inv;
      NextKeepsInv(St(), Op.Draw(ready, made, fate));
      ok := EnsureCommandBuffer(made);
      if !ok || renderTarget.None? || !ready {
        return;
      }
      ghost var e := St();
      if isTargetChanged {
        passColor, passDepth := renderTarget, depthStencil;
        assert Pending() == e.pending;
        Mark(renderTarget.value);
      }
      assert St() == PassUpdated(e);
      if fate != Encodes {
        return false;
      }
      var attachments := TexOf(passColor) + TexOf(passDepth);
      Encode((set t | t in textures :: Tex(t)) + attachments, attachments, ValueOf(passColor));
    }

    // ----- Copies

    method CopyTexture(source: MetalTexture, destination: MetalTexture, made: bool, encoded: bool) returns (ok: bool)
      requires Valid() && source in known
      modifies this, inFlight
      ensures Valid() && known == old(known) && St() == Next(old(St()), Op.CopyTexture(source, destination, made, encoded))
      ensures ok == !Throws(old(St()), Op.CopyTexture(source, destination, made, encoded))
    {
      hide Encoded, Inv;
      NextKeepsInv(St(), Op.CopyTexture(source, destination, made, encoded));
      if source.hasPendingWrites {
        FinishPendingCommands();
      }
      ok := EnsureCommandBuffer(made);
      if !ok {
        return;
      }
      if !encoded {
        return false;
      }
      Encode({Tex(source)}, {Tex(destination)}, {});
    }

    /** Staging into a texture or buffer and region copies: a command buffer of their own. */
    method StageTo(source: MetalTexture, into: Resource, whole: bool, encoded: bool) returns (ok: bool)
      requires Valid() && source in known
      modifies this, inFlight
      ensures Valid() && known == old(known) && St() == Next(old(St()), Op.StageTo(source, into, whole, encoded))
      ensures ok == !Throws(old(St()), Op.StageTo(source, into, whole, encoded))
    {
      hide Inv;
      NextKeepsInv(St(), Op.StageTo(source, into, whole, encoded));
      if source.hasPendingWrites {
        FinishPendingCommands();
      }
      if !encoded {
        return false;
      }
      CommitAtOnce(Tex(source), into, whole);
      return true;
    }

    method StageBufferToTexture(number: nat, destination: MetalTexture, whole: bool, encoded: bool) returns (ok: bool)
      requires Valid()
      modifies this
      ensures Valid() && known == old(known) && St() == Next(old(St()), StageFrom(number, destination, whole, encoded))
      ensures ok == !Throws(old(St()), StageFrom(number, destination, whole, encoded))
    {
      hide Inv;
      NextKeepsInv(St(), StageFrom(number, destination, whole, encoded));
      if !encoded {
        return false;
      }
      CommitAtOnce(Staging(number), Tex(destination), whole);
      return true;
    }

    /** After a texture upload; without a buffer or encoder the call gives up quietly. */
    method GenerateMipmaps(tex: MetalTexture, made: bool, encoded: bool)
      requires Valid()
      modifies this
      ensures Valid() && known == old(known) && St() == Next(old(St()), Op.GenerateMipmaps(tex, made, encoded))
    {
      hide Encoded, Inv;
      NextKeepsInv(St(), Op.GenerateMipmaps(tex, made, encoded));
      var ok := EnsureCommandBuffer(made);
      if ok && encoded {
        Encode({Tex(tex)}, {Tex(tex)}, {});
      }
    }

    /** Present and flush. */
    method Flush()
      requires Valid()
      modifies this, inFlight
      ensures Valid() && known == old(known) && St() == Next(old(St()), Finish)
    {
      hide Inv;
      NextKeepsInv(St(), Finish);
      FinishPendingCommands();
    }
  }
}
