/** The walk over one GUI draw list (drawCommandList): every command either runs its
    user callback or draws its ElemCount indices with its texture bound, and every
    command, callbacks included, advances the running offset into the index buffer. */
module DrawList {
  import opened Textures

  /** One draw command (ImDrawCmd): how many indices it covers, the wrapper its
      texture handle points to, and whether it carries a user callback. */
  datatype DrawCmd = DrawCmd(elemCount: nat, texture: GuiTexture?, hasUserCallback: bool)

  /** One draw list (ImDrawList): its commands and its index buffer. */
  datatype CommandList = CommandList(cmdBuffer: seq<DrawCmd>, idxBuffer: seq<nat>)

  /** What the walk does for one command: run the user callback of the command at
      the given position, or bind a GPU texture and draw triangles from the given
      indices, which start at firstIndex in the index buffer. */
  datatype DrawCall =
    | UserCallback(command: nat)
    | DrawElements(gpuTexture: nat, firstIndex: nat, indices: seq<nat>)

  /** The number of indices the commands cover together (the final value of the
      running FirstIndexElement); every single command fits inside it. */
  function ElemSum(cmds: seq<DrawCmd>): (total: nat)
    ensures forall i :: 0 <= i < |cmds| ==> cmds[i].elemCount <= total
  {
    if cmds == [] then 0 else ElemSum(cmds[..|cmds| - 1]) + cmds[|cmds| - 1].elemCount
  }

  /** Covering one more command adds its ElemCount. */
  lemma ElemSumStep(cmds: seq<DrawCmd>, i: nat)
    requires i < |cmds|
    ensures ElemSum(cmds[..i + 1]) == ElemSum(cmds[..i]) + cmds[i].elemCount
  {
    assert cmds[..i + 1][..i] == cmds[..i];
  }

  /** Earlier commands never cover more indices than later prefixes: the index
      range of command i ends no later than where command j starts, for i < j. */
  lemma {:induction false} ElemSumMonotonic(cmds: seq<DrawCmd>, i: nat, j: nat)
    requires i <= j <= |cmds|
    ensures ElemSum(cmds[..i]) <= ElemSum(cmds[..j])
  {
    if i < j {
      ElemSumMonotonic(cmds, i, j - 1);
      ElemSumStep(cmds, j - 1);
    }
  }

  /** Where the indices of command i start: the ElemCount of all earlier commands.
      Its range ends inside the indices the whole list covers. */
  function IndexOffset(cmds: seq<DrawCmd>, i: nat): (first: nat)
    requires i < |cmds|
    ensures first + cmds[i].elemCount <= ElemSum(cmds)
  {
    ElemSumStep(cmds, i);
    ElemSumMonotonic(cmds, i + 1, |cmds|);
    assert cmds[..|cmds|] == cmds;
    ElemSum(cmds[..i])
  }

  /** The index ranges of two different commands never overlap, and they appear in
      command order. */
  lemma IndexRangesDisjoint(cmds: seq<DrawCmd>, i: nat, j: nat)
    requires i < j < |cmds|
    ensures IndexOffset(cmds, i) + cmds[i].elemCount <= IndexOffset(cmds, j)
  {
    ElemSumStep(cmds, i);
    ElemSumMonotonic(cmds, i + 1, j);
  }

  /** The index slices of the first n commands, concatenated in command order
      (callback commands contribute the slice they skip). */
  function CoveredIndices(list: CommandList, n: nat): seq<nat>
    requires n <= |list.cmdBuffer| && ElemSum(list.cmdBuffer) <= |list.idxBuffer|
  {
    if n == 0 then []
    else
      var first := IndexOffset(list.cmdBuffer, n - 1);
      CoveredIndices(list, n - 1) + list.idxBuffer[first..first + list.cmdBuffer[n - 1].elemCount]
  }

  /** The commands' index ranges tile the covered prefix of the index buffer: no
      index is skipped and none is used twice. */
  lemma {:induction false} CoveredIndicesTile(list: CommandList, n: nat)
    requires n <= |list.cmdBuffer| && ElemSum(list.cmdBuffer) <= |list.idxBuffer|
    ensures ElemSum(list.cmdBuffer[..n]) <= |list.idxBuffer|
    ensures CoveredIndices(list, n) == list.idxBuffer[..ElemSum(list.cmdBuffer[..n])]
  {
    ElemSumMonotonic(list.cmdBuffer, n, |list.cmdBuffer|);
    assert list.cmdBuffer[..|list.cmdBuffer|] == list.cmdBuffer;
    if n > 0 {
      CoveredIndicesTile(list, n - 1);
      ElemSumStep(list.cmdBuffer, n - 1);
    }
  }

  /** drawCommandList: walks the commands in order, keeping the running index
      offset; a command with a user callback runs it, any other command draws its
      ElemCount indices starting at the offset with its wrapper's GPU texture. */
  method DrawCommandList(list: CommandList) returns (calls: seq<DrawCall>)
    requires ElemSum(list.cmdBuffer) <= |list.idxBuffer|
    requires forall i :: 0 <= i < |list.cmdBuffer| && !list.cmdBuffer[i].hasUserCallback ==>
               list.cmdBuffer[i].texture != null
    ensures |calls| == |list.cmdBuffer|
    ensures forall i :: 0 <= i < |list.cmdBuffer| && list.cmdBuffer[i].hasUserCallback ==>
              calls[i] == UserCallback(i)
    ensures forall i :: 0 <= i < |list.cmdBuffer| && !list.cmdBuffer[i].hasUserCallback ==>
              var first := IndexOffset(list.cmdBuffer, i);
              calls[i] == DrawElements(list.cmdBuffer[i].texture.gpuTextureId, first,
                                       list.idxBuffer[first..first + list.cmdBuffer[i].elemCount])
  {
    var cmds := list.cmdBuffer;
    var firstIndexElement := 0;
    calls := [];
    for commandIndex := 0 to |cmds|
      invariant firstIndexElement == ElemSum(cmds[..commandIndex])
      invariant |calls| == commandIndex
      invariant forall i :: 0 <= i < commandIndex && cmds[i].hasUserCallback ==> calls[i] == UserCallback(i)
      invariant forall i :: 0 <= i < commandIndex && !cmds[i].hasUserCallback ==>
                  var first := IndexOffset(cmds, i);
                  calls[i] == DrawElements(cmds[i].texture.gpuTextureId, first,
                                           list.idxBuffer[first..first + cmds[i].elemCount])
    {
      var command := cmds[commandIndex];
      if command.hasUserCallback {
        calls := calls + [UserCallback(commandIndex)];
      } else {
        assert firstIndexElement == IndexOffset(cmds, commandIndex);
        calls := calls + [DrawElements(command.texture.gpuTextureId, firstIndexElement,
                                       list.idxBuffer[firstIndexElement..firstIndexElement + command.elemCount])];
      }
      ElemSumStep(cmds, commandIndex);
      firstIndexElement := firstIndexElement + command.elemCount;
    }
  }
}
