/**
 * The dashboard (src/components/Dashboard.jsx): the upload pipeline
 * (upload, refresh the resume list, analyse, update stats), the drag-and-drop
 * flags, the resume picker that fills the metadata cards, and deletion.
 */
module Dashboard {
  import opened JsRuntime
  import opened Entities
  import ResumeSlice

  /**
   * The `metadata` state as the cards read it.  A stats response or the
   * `{}` written after a delete may lack any field, so each is optional.
   */
  datatype Metadata = Metadata(
    score: Option<real>,
    strengths: Option<seq<string>>,
    weaknesses: Option<seq<string>>,
    improvements: Option<seq<string>>)

  /** The initial metadata and the one a deselection writes: score 0, empty lists. */
  const ZeroMetadata: Metadata := Metadata(Some(0.0), Some([]), Some([]), Some([]))

  /** `{}`: what a delete writes. */
  const NoMetadata: Metadata := Metadata(None, None, None, None)

  /** A file as the picker or the drop hands it over; nothing about it is inspected. */
  datatype UploadFile = UploadFile(name: string, mimeType: string, size: nat)

  /** The upload response: `success` and `resumeId`, either of which the server may omit. */
  datatype UploadResponse = UploadResponse(success: bool, resumeId: Option<string>)

  /** What the four awaited calls of one upload yield, in call order. */
  datatype UploadScript = UploadScript(
    upload: Outcome<UploadResponse>,
    refresh: Outcome<seq<Resume>>,
    analysis: Outcome<()>,
    stats: Outcome<Metadata>)

  /** One observable effect: a remote call made, or the resume list dispatched to the store. */
  datatype Effect =
    | Upload(file: UploadFile)
    | FetchResumes(userId: Option<string>)
    | DispatchSetResumes(resumes: seq<Resume>)
    | Analyze(resumeId: Option<string>)
    | UpdateStats(resumeId: Option<string>)
    | Delete(deletedId: string)

  const Uploading: string := "Uploading file..."
  const Analyzing: string := "Analyzing resume..."
  const UpdatingStats: string := "Updating stats!"
  const StatsUpdated: string := "Stats Updated..."
  const UploadFailed: string := "Upload failed. Please try again."

  /** The progress messages of an upload whose four calls all resolve. */
  const SuccessTrace: seq<string> := [Uploading, Analyzing, UpdatingStats, StatsUpdated]

  /** How many of the four calls resolve before the first rejection (4: none rejects). */
  function StepsResolved(script: UploadScript): (k: nat)
    ensures k <= 4
    ensures k >= 1 <==> script.upload.Resolved?
    ensures k >= 2 <==> script.upload.Resolved? && script.refresh.Resolved?
    ensures k >= 3 <==> script.upload.Resolved? && script.refresh.Resolved? && script.analysis.Resolved?
    ensures k == 4 <==> script.upload.Resolved? && script.refresh.Resolved? && script.analysis.Resolved? && script.stats.Resolved?
  {
    if script.upload.Rejected? then 0
    else if script.refresh.Rejected? then 1
    else if script.analysis.Rejected? then 2
    else if script.stats.Rejected? then 3
    else 4
  }

  /** The progress messages set once the first `k` calls have resolved. */
  function TraceAfter(k: nat): (t: seq<string>)
    requires k <= 4
    ensures 1 <= |t| <= |SuccessTrace| && t == SuccessTrace[..|t|]
    ensures t[|t| - 1] == (if k == 0 then Uploading else if k <= 2 then Analyzing else if k == 3 then UpdatingStats else StatsUpdated)
  {
    SuccessTrace[..if k == 0 then 1 else if k <= 2 then 2 else if k == 3 then 3 else 4]
  }

  /** The effects of an upload in which every call resolves. */
  function AllEffects(file: UploadFile, userId: Option<string>, script: UploadScript): seq<Effect>
    requires script.upload.Resolved? && script.refresh.Resolved?
  {
    [Upload(file), FetchResumes(userId), DispatchSetResumes(script.refresh.value),
     Analyze(script.upload.value.resumeId), UpdateStats(script.upload.value.resumeId)]
  }

  /**
   * The effects of an upload: the calls up to and including the first that
   * rejects, with the refreshed list dispatched right after it arrives.
   */
  function UploadEffects(file: UploadFile, userId: Option<string>, script: UploadScript): (es: seq<Effect>)
    ensures |es| >= 1 && es[0] == Upload(file)
    ensures script.upload.Resolved? && script.refresh.Resolved? ==>
              es == AllEffects(file, userId, script)[..if script.analysis.Rejected? then 4 else 5]
    ensures script.upload.Rejected? ==> es == [Upload(file)]
    ensures script.upload.Resolved? && script.refresh.Rejected? ==> es == [Upload(file), FetchResumes(userId)]
  {
    if script.upload.Rejected? then [Upload(file)]
    else if script.refresh.Rejected? then [Upload(file), FetchResumes(userId)]
    else if script.analysis.Rejected? then AllEffects(file, userId, script)[..4]
    else AllEffects(file, userId, script)
  }

  /**
   * The calls run strictly in the order upload, list refresh, analysis,
   * stats: no call is made unless every earlier one resolved, the store
   * gets the refreshed list before the analysis starts, and analysis and
   * stats both receive the id the upload returned.
   */
  lemma {:induction false} UploadEffectsOrdered(file: UploadFile, userId: Option<string>, script: UploadScript)
    ensures (exists e :: e in UploadEffects(file, userId, script) && e.FetchResumes?) ==> StepsResolved(script) >= 1
    ensures (exists e :: e in UploadEffects(file, userId, script) && e.Analyze?) ==> StepsResolved(script) >= 2
    ensures (exists e :: e in UploadEffects(file, userId, script) && e.UpdateStats?) ==> StepsResolved(script) >= 3
    ensures var es := UploadEffects(file, userId, script);
            forall i | 0 <= i < |es| && (es[i].Analyze? || es[i].UpdateStats?) ::
              && script.upload.Resolved? && es[i].resumeId == script.upload.value.resumeId
              && exists j :: 0 <= j < i && es[j] == DispatchSetResumes(script.refresh.value)
  {
    var es := UploadEffects(file, userId, script);
    if StepsResolved(script) >= 2 {
      assert es[2] == DispatchSetResumes(script.refresh.value);
    }
  }

  /** What the score card shows: "--", or the metadata's score (absent after a delete). */
  datatype ScoreDisplay = Placeholder | Shown(score: Option<real>)

  /** `list?.length || 0`: the figure of a count card. */
  function CountShown(list: Option<seq<string>>): (n: nat)
    ensures list.None? ==> n == 0
    ensures list.Some? ==> n == |list.value|
  {
    match list
    case Some(l) => |l|
    case None => 0
  }

  /** `handleSelectedResume`: the metadata a selection fills in (`x || 0`, `x || []`). */
  function MetadataOf(sel: SelectedResume): (m: Metadata)
    ensures m.score == Some(sel.score)
    ensures m.strengths == Some(sel.strengths) && m.weaknesses == Some(sel.weaknesses)
    ensures m.improvements == Some(sel.improvements)
  {
    Metadata(Some(sel.score), Some(sel.strengths), Some(sel.weaknesses), Some(sel.improvements))
  }

  /**
   * Selecting a resume fills the cards from its stored analysis: score
   * `resume_score || 0`, each count the length of the stored list or 0.
   */
  lemma SelectionFillsCards(r: Resume)
    ensures MetadataOf(SelectionOf(r)).score == Some(r.resumeScore.GetOr(0.0))
    ensures CountShown(MetadataOf(SelectionOf(r)).strengths) ==
              if r.resumeFeedback.Some? && r.resumeFeedback.value.strengths.Some?
              then |r.resumeFeedback.value.strengths.value| else 0
    ensures CountShown(MetadataOf(SelectionOf(r)).weaknesses) ==
              if r.resumeFeedback.Some? && r.resumeFeedback.value.weaknesses.Some?
              then |r.resumeFeedback.value.weaknesses.value| else 0
    ensures CountShown(MetadataOf(SelectionOf(r)).improvements) ==
              if r.resumeFeedback.Some? && r.resumeFeedback.value.improvements.Some?
              then |r.resumeFeedback.value.improvements.value| else 0
  {
  }

  class DashboardPage {
    /** Truthiness of `resume`: the `success` flag of the last upload, false initially and after a delete. */
    var resume: bool
    var uploading: bool
    var progress: string
    var dragOver: bool
    var selectedResume: Option<SelectedResume>
    var metadata: Metadata

    constructor ()
      ensures !resume && !uploading && progress == "" && !dragOver
      ensures selectedResume == None && metadata == ZeroMetadata
    {
      resume, uploading, progress, dragOver := false, false, "", false;
      selectedResume := None;
      metadata := ZeroMetadata;
    }

    /** The score card: "--" unless an upload succeeded or a resume is selected. */
    function ScoreCard(): (d: ScoreDisplay)
      reads this
      ensures d == Placeholder <==> !resume && selectedResume.None?
      ensures d != Placeholder ==> d.score == metadata.score
    {
      if resume || selectedResume.Some? then Shown(metadata.score) else Placeholder
    }

    /** The strengths, weaknesses and improvements count cards. */
    function CardCounts(): (nat, nat, nat)
      reads this
    {
      (CountShown(metadata.strengths), CountShown(metadata.weaknesses), CountShown(metadata.improvements))
    }

    method HandleDragOver()
      modifies this`dragOver
      ensures dragOver
    {
      dragOver := true;
    }

    method HandleDragLeave()
      modifies this`dragOver
      ensures !dragOver
    {
      dragOver := false;
    }

    /**
     * `handleFileUpload`: four awaited calls, each only after the previous
     * one resolved.  The first rejection ends the run with the failure
     * message and `uploading` false; on success `uploading` stays true and
     * the reset timer is armed.  `trace` lists the progress values in the
     * order they are set and `effects` the calls and store dispatches.
     */
    method HandleFileUpload(file: UploadFile, userId: Option<string>, store: ResumeSlice.ResumeState, script: UploadScript)
      returns (effects: seq<Effect>, trace: seq<string>, timerArmed: bool)
      modifies this`uploading, this`progress, this`resume, this`metadata, store`resumes
      ensures effects == UploadEffects(file, userId, script)
      ensures StepsResolved(script) == 4 ==>
                && trace == SuccessTrace && progress == StatsUpdated
                && uploading && timerArmed && metadata == script.stats.value
      ensures StepsResolved(script) < 4 ==>
                && trace == TraceAfter(StepsResolved(script)) + [UploadFailed] && progress == UploadFailed
                && !uploading && !timerArmed && metadata == old(metadata)
      ensures resume == if script.upload.Resolved? then script.upload.value.success else old(resume)
      ensures store.resumes == if StepsResolved(script) >= 2 then script.refresh.value else old(store.resumes)
    {
      effects, timerArmed := [], false;
      uploading := true;
      progress := Uploading;
      trace := [progress];

      effects := effects + [Upload(file)];
      if script.upload.Rejected? {
        progress := UploadFailed;
        trace := trace + [progress];
        uploading := false;
        return;
      }
      var response := script.upload.value;
      resume := response.success;
      progress := Analyzing;
      trace := trace + [progress];

      effects := effects + [FetchResumes(userId)];
      if script.refresh.Rejected? {
        progress := UploadFailed;
        trace := trace + [progress];
        uploading := false;
        return;
      }
      store.SetResumes(script.refresh.value);
      effects := effects + [DispatchSetResumes(script.refresh.value)];

      effects := effects + [Analyze(response.resumeId)];
      if script.analysis.Rejected? {
        progress := UploadFailed;
        trace := trace + [progress];
        uploading := false;
        return;
      }
      progress := UpdatingStats;
      trace := trace + [progress];

      effects := effects + [UpdateStats(response.resumeId)];
      if script.stats.Rejected? {
        progress := UploadFailed;
        trace := trace + [progress];
        uploading := false;
        return;
      }
      metadata := script.stats.value;
      progress := StatsUpdated;
      trace := trace + [progress];
      timerArmed := true;
    }

    /** The two-second timer armed by a successful upload. */
    method UploadTimerFires()
      modifies this`uploading, this`progress
      ensures !uploading && progress == ""
    {
      uploading := false;
      progress := "";
    }

    /**
     * `handleDrop`: clears the drag flag and uploads the first dropped file,
     * whatever its type or size, with the outcome of `HandleFileUpload`;
     * with no file nothing else changes.
     */
    method HandleDrop(files: seq<UploadFile>, userId: Option<string>, store: ResumeSlice.ResumeState, script: UploadScript)
      returns (effects: seq<Effect>, trace: seq<string>, timerArmed: bool)
      modifies this`dragOver, this`uploading, this`progress, this`resume, this`metadata, store`resumes
      ensures !dragOver
      ensures files == [] ==>
                && effects == [] && trace == [] && !timerArmed
                && unchanged(this`uploading, this`progress, this`resume, this`metadata, store)
      ensures files != [] ==> effects == UploadEffects(files[0], userId, script) && effects[0] == Upload(files[0])
      ensures files != [] && StepsResolved(script) == 4 ==>
                && trace == SuccessTrace && progress == StatsUpdated
                && uploading && timerArmed && metadata == script.stats.value
      ensures files != [] && StepsResolved(script) < 4 ==>
                && trace == TraceAfter(StepsResolved(script)) + [UploadFailed] && progress == UploadFailed
                && !uploading && !timerArmed && metadata == old(metadata)
      ensures files != [] ==> resume == if script.upload.Resolved? then script.upload.value.success else old(resume)
      ensures files != [] ==> store.resumes == if StepsResolved(script) >= 2 then script.refresh.value else old(store.resumes)
    {
      dragOver := false;
      if files == [] {
        return [], [], false;
      }
      effects, trace, timerArmed := HandleFileUpload(files[0], userId, store, script);
    }

    /**
     * `handleFileSelect`: uploads the first chosen file, whatever its type
     * or size, with the outcome of `HandleFileUpload`; with no file nothing
     * changes.
     */
    method HandleFileSelect(files: seq<UploadFile>, userId: Option<string>, store: ResumeSlice.ResumeState, script: UploadScript)
      returns (effects: seq<Effect>, trace: seq<string>, timerArmed: bool)
      modifies this`uploading, this`progress, this`resume, this`metadata, store`resumes
      ensures files == [] ==>
                && effects == [] && trace == [] && !timerArmed
                && unchanged(this`uploading, this`progress, this`resume, this`metadata, store)
      ensures files != [] ==> effects == UploadEffects(files[0], userId, script) && effects[0] == Upload(files[0])
      ensures files != [] && StepsResolved(script) == 4 ==>
                && trace == SuccessTrace && progress == StatsUpdated
                && uploading && timerArmed && metadata == script.stats.value
      ensures files != [] && StepsResolved(script) < 4 ==>
                && trace == TraceAfter(StepsResolved(script)) + [UploadFailed] && progress == UploadFailed
                && !uploading && !timerArmed && metadata == old(metadata)
      ensures files != [] ==> resume == if script.upload.Resolved? then script.upload.value.success else old(resume)
      ensures files != [] ==> store.resumes == if StepsResolved(script) >= 2 then script.refresh.value else old(store.resumes)
    {
      if files == [] {
        return [], [], false;
      }
      effects, trace, timerArmed := HandleFileUpload(files[0], userId, store, script);
    }

    /**
     * A resume card: clicking the selected one deselects it and zeroes the
     * cards; clicking another selects it and fills the cards from it.
     */
    method ClickResume(r: Resume)
      modifies this`selectedResume, this`metadata
      ensures old(selectedResume).Some? && old(selectedResume).value.id == r.id ==>
                selectedResume == None && metadata == ZeroMetadata
      ensures !(old(selectedResume).Some? && old(selectedResume).value.id == r.id) ==>
                selectedResume == Some(SelectionOf(r)) && metadata == MetadataOf(SelectionOf(r))
    {
      if selectedResume.Some? && selectedResume.value.id == r.id {
        selectedResume := None;
        metadata := ZeroMetadata;
        return;
      }
      var selected := SelectionOf(r);
      selectedResume := Some(selected);
      metadata := MetadataOf(selected);
    }

    /**
     * `handleDeleteResume(selectedResume.id)`: deletes, refreshes the store,
     * then clears the selection, the upload flag and the metadata.  Its last
     * statement calls an undefined `setStats`, so every run ends rejected;
     * a rejected call ends it earlier with nothing cleared.
     */
    method HandleDeleteResume(userId: Option<string>, store: ResumeSlice.ResumeState,
                              deleted: Outcome<()>, refreshed: Outcome<seq<Resume>>)
      returns (effects: seq<Effect>, outcome: Outcome<()>)
      requires selectedResume.Some?
      modifies this`selectedResume, this`resume, this`metadata, store`resumes
      ensures outcome == Rejected
      ensures deleted.Rejected? ==> effects == [Delete(old(selectedResume).value.id)]
      ensures deleted.Resolved? && refreshed.Rejected? ==>
                effects == [Delete(old(selectedResume).value.id), FetchResumes(userId)]
      ensures deleted.Resolved? && refreshed.Resolved? ==>
                && effects == [Delete(old(selectedResume).value.id), FetchResumes(userId), DispatchSetResumes(refreshed.value)]
                && store.resumes == refreshed.value
                && selectedResume == None && !resume && metadata == NoMetadata
                && ScoreCard() == Placeholder && CardCounts() == (0, 0, 0)
      ensures deleted.Rejected? || refreshed.Rejected? ==>
                && selectedResume == old(selectedResume) && resume == old(resume)
                && metadata == old(metadata) && store.resumes == old(store.resumes)
    {
      var id := selectedResume.value.id;
      effects := [Delete(id)];
      if deleted.Rejected? {
        return effects, Rejected;
      }
      effects := effects + [FetchResumes(userId)];
      if refreshed.Rejected? {
        return effects, Rejected;
      }
      store.SetResumes(refreshed.value);
      effects := effects + [DispatchSetResumes(refreshed.value)];
      selectedResume := None;
      resume := false;
      metadata := NoMetadata;
      outcome := Rejected;
    }
  }
}
