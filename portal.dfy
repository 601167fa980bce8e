/** The portal (components/ThePortal.tsx and src/components/ThePortal.tsx):
    the input surface that decides which drops and clicks reach the ritual
    controller, and the drag-over cell its handlers update. The two variants
    share these guards; they differ only in how a rejected drop is signalled
    (a failure sound or an alert), which the model folds into `Rejected`. */
module Portal {
  import opened Types
  import opened SpiritService

  /** The states in which a drag, a drop or a click is honoured. */
  predicate AcceptsInput(state: RitualState)
  {
    state == Idle || state == Failed
  }

  /** `file.type.startsWith('image/')`. */
  predicate IsImageType(mimeType: string)
  {
    "image/" <= mimeType
  }

  /** What a drop does: nothing, a rejection of a non-image, or the first
      file forwarded to `onFileSelected`. */
  datatype DropOutcome = Ignored | Rejected | Selected(file: File)

  /** `handleDrop`, after it has cleared the drag-over cell. */
  function DropOutcomeOf(state: RitualState, files: seq<File>): (d: DropOutcome)
    ensures d.Selected? <==> AcceptsInput(state) && |files| > 0 && IsImageType(files[0].blob.mimeType)
    ensures d.Selected? ==> d.file == files[0]
    ensures d.Rejected? <==> AcceptsInput(state) && |files| > 0 && !IsImageType(files[0].blob.mimeType)
  {
    if !AcceptsInput(state) || |files| == 0 then Ignored
    else if IsImageType(files[0].blob.mimeType) then Selected(files[0])
    else Rejected
  }

  /** `handleFileChange`: the first chosen file, with no state or type check. */
  function ChangeSelection(files: seq<File>): (f: Option<File>)
    ensures f.Some? <==> |files| > 0
    ensures f.Some? ==> f.value == files[0]
  {
    if |files| > 0 then Some(files[0]) else None
  }

  /** `isProcessing`. */
  predicate IsProcessing(state: RitualState)
  {
    state == Severing
  }

  /** The three looks of the src/components/ThePortal.tsx portal. */
  datatype Look = SummoningLook | ProcessingLook | RestingLook

  /** The `if (isSummoning) … else if (isProcessing) …` style selection. */
  function LookOf(isSummoning: bool, isProcessing: bool): (l: Look)
    ensures l == SummoningLook <==> isSummoning
    ensures l == ProcessingLook <==> !isSummoning && isProcessing
  {
    if isSummoning then SummoningLook
    else if isProcessing then ProcessingLook
    else RestingLook
  }

  /** No drop, no click and no drag-over is honoured while a ritual is
      severing or its result is shown. */
  lemma BusyPortalIgnoresInput(state: RitualState, files: seq<File>)
    requires state == Severing || state == Complete
    ensures DropOutcomeOf(state, files) == Ignored
    ensures !AcceptsInput(state)
  {
  }

  /** A file whose type does not start with `image/` is never forwarded by a
      drop, whatever the state and whatever follows it in the list. */
  lemma DropNeverForwardsNonImage(state: RitualState, files: seq<File>)
    requires |files| > 0 && !IsImageType(files[0].blob.mimeType)
    ensures !DropOutcomeOf(state, files).Selected?
  {
  }

  class ThePortal {
    /** The `isDragOver` state cell. */
    var isDragOver: bool

    constructor ()
      ensures !isDragOver
    {
      isDragOver := false;
    }

    /** `isSummoning` is the drag-over cell itself. */
    function IsSummoning(): bool
      reads this
    {
      isDragOver
    }

    /** `handleDragEnter`: set drag-over only when input is accepted. */
    method HandleDragEnter(state: RitualState)
      modifies this
      ensures isDragOver == (old(isDragOver) || AcceptsInput(state))
    {
      if AcceptsInput(state) {
        isDragOver := true;
      }
    }

    /** `handleDragLeave`: clear drag-over in every state. */
    method HandleDragLeave()
      modifies this
      ensures !isDragOver
    {
      isDragOver := false;
    }

    /** `handleDrop`: clear drag-over in every state, then apply the guards. */
    method HandleDrop(state: RitualState, files: seq<File>) returns (d: DropOutcome)
      modifies this
      ensures !isDragOver
      ensures d == DropOutcomeOf(state, files)
    {
      isDragOver := false;
      if !AcceptsInput(state) {
        return Ignored;
      }
      if |files| > 0 {
        var file := files[0];
        if IsImageType(file.blob.mimeType) {
          d := Selected(file);
        } else {
          d := Rejected;
        }
      } else {
        d := Ignored;
      }
    }

    /** `handleClick`: whether the hidden file picker is opened. */
    method HandleClick(state: RitualState) returns (opensPicker: bool)
      ensures opensPicker <==> state == Idle || state == Failed
    {
      opensPicker := AcceptsInput(state);
    }

    /** `handleFileChange`: forward the first chosen file, if any. */
    method HandleFileChange(files: seq<File>) returns (selected: Option<File>)
      ensures selected == ChangeSelection(files)
    {
      if |files| > 0 {
        selected := Some(files[0]);
      } else {
        selected := None;
      }
    }

    /** The look this portal shows for `state`: summoning wins over
        processing. */
    function CurrentLook(state: RitualState): (l: Look)
      reads this
      ensures isDragOver ==> l == SummoningLook
      ensures l == ProcessingLook <==> !isDragOver && state == Severing
    {
      LookOf(IsSummoning(), IsProcessing(state))
    }
  }
}
