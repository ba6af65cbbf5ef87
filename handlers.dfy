/**
  The handlers of handlers.py that read and change the credit ledger: the media job, the
  text-action button, the admin's approve/reject buttons, `/add_credit`, `/set_status`, the
  language buttons, together with the pure helpers they rely on (the YouTube id parser, the
  callback-data formats, the fixed-size chunking of long admin messages).

  Each handler is a function from the tables before it runs to its outcome and the tables
  after, stating what changes and when nothing does, and a method on a `Session` proved to
  behave as that function says.
*/
module Handlers {
  import opened Wrappers
  import opened Strings
  import opened Config
  import opened Database
  import opened Utils

  // ---------------------------------------------------------------------------
  // The ledger: a balance change committed, then a log row written on its own
  // ---------------------------------------------------------------------------

  /** `user.credit_minutes += delta; db.commit()` followed by `log_activity(..., credit_change=delta)`.
      The balance change stands even when the log row's commit fails. */
  function Adjust(t: Tables, id: int, delta: real, action: string, details: Option<LogDetails>,
                  committed: bool): (r: Tables)
    requires id in t.users
    ensures id in r.users && r.users[id].creditMinutes == t.users[id].creditMinutes + delta
    ensures r.users == t.users[id := t.users[id].(creditMinutes := t.users[id].creditMinutes + delta)]
    ensures r.logs == if committed then t.logs + [ActivityLog(id, action, delta, details)] else t.logs
    ensures t.WellFormed() ==> r.WellFormed()
  {
    var u := t.users[id];
    AppendLog(Tables(t.users[id := u.(creditMinutes := u.creditMinutes + delta)], t.logs),
              ActivityLog(id, action, delta, details), committed)
  }

  method ApplyAdjust(db: Session, id: int, delta: real, action: string, details: Option<LogDetails>,
                     committed: bool)
    requires id in db.users
    modifies db
    ensures old(db.Valid()) ==> db.Valid()
    ensures db.State() == Adjust(old(db.State()), id, delta, action, details, committed)
  {
    var u := db.users[id];
    db.users := db.users[id := u.(creditMinutes := u.creditMinutes + delta)];
    LogActivity(db, id, action, delta, details, committed);
  }

  /** The sum of the credit changes logged for user `id`. */
  function LoggedTotal(logs: seq<ActivityLog>, id: int): real
  {
    if |logs| == 0 then 0.0
    else LoggedTotal(logs[..|logs| - 1], id)
         + (if logs[|logs| - 1].userId == id then logs[|logs| - 1].creditChange else 0.0)
  }

  /** The balance of user `id` is what the log says it received and spent. */
  ghost predicate Reconciled(t: Tables, id: int)
  {
    id in t.users && t.users[id].creditMinutes == LoggedTotal(t.logs, id)
  }

  lemma LoggedTotalAppend(logs: seq<ActivityLog>, e: ActivityLog, id: int)
    ensures LoggedTotal(logs + [e], id) == LoggedTotal(logs, id) + (if e.userId == id then e.creditChange else 0.0)
  {
    assert (logs + [e])[..|logs|] == logs;
  }

  /** A balance change whose log row is committed keeps the balance and the log in agreement,
      for the user concerned and for every other user. */
  lemma AdjustKeepsReconciled(t: Tables, id: int, delta: real, action: string,
                              details: Option<LogDetails>, other: int)
    requires id in t.users && Reconciled(t, other)
    ensures Reconciled(Adjust(t, id, delta, action, details, true), other)
  {
    LoggedTotalAppend(t.logs, ActivityLog(id, action, delta, details), other);
  }

  /** Removing one user's rows leaves every other user's logged total as it was. */
  lemma {:induction false} LogsWithoutKeepsOthersTotal(logs: seq<ActivityLog>, id: int, other: int)
    requires other != id
    ensures LoggedTotal(LogsWithout(logs, id), other) == LoggedTotal(logs, other)
    decreases |logs|
  {
    if |logs| > 0 {
      var init, last := logs[..|logs| - 1], logs[|logs| - 1];
      LogsWithoutSnoc(logs, id);
      LogsWithoutKeepsOthersTotal(init, id, other);
      var kept := LogsWithout(init, id);
      if last.userId == id {
        assert kept + [] == kept;
      } else {
        LoggedTotalAppend(kept, last, other);
      }
    }
  }

  /** Removing a user's rows from a non-empty log: the rows kept from all but the last row, then
      the last row unless it is the user's. */
  lemma LogsWithoutSnoc(logs: seq<ActivityLog>, id: int)
    requires |logs| > 0
    ensures var last := logs[|logs| - 1];
            LogsWithout(logs, id) == LogsWithout(logs[..|logs| - 1], id) + (if last.userId == id then [] else [last])
  {
    var init, last := logs[..|logs| - 1], logs[|logs| - 1];
    assert logs == init + [last];
    LogsWithoutConcat(init, [last], id);
    LogsWithoutSingle(last, id);
  }

  lemma LogsWithoutSingle(e: ActivityLog, id: int)
    ensures LogsWithout([e], id) == if e.userId == id then [] else [e]
  {
    assert [e][1..] == [];
  }

  /** Deleting a user leaves every other user's balance in agreement with the log if it was. */
  lemma DeleteUserKeepsReconciled(t: Tables, id: int, other: int)
    requires other != id && Reconciled(t, other)
    ensures Reconciled(DeleteUser(t, id), other)
  {
    LogsWithoutKeepsOthersTotal(t.logs, id, other);
  }

  /** The gap between the two commits: when the log row is lost, a non-zero change leaves the
      balance out of agreement with the log. */
  lemma LostLogBreaksReconciled(t: Tables, id: int, delta: real, action: string, details: Option<LogDetails>)
    requires Reconciled(t, id) && delta != 0.0
    ensures !Reconciled(Adjust(t, id, delta, action, details, false), id)
  {
  }

  // ---------------------------------------------------------------------------
  // handle_media_file
  // ---------------------------------------------------------------------------

  /** The voice, audio or video file of a message, as Telegram declares it. */
  datatype MediaFile = MediaFile(durationSeconds: nat, fileName: string)

  /** What pydub makes of the downloaded file: its measured length, or `CouldntDecodeError`. */
  datatype Decoding = Decoded(lengthMs: nat) | CouldntDecode

  /** A reply of the AI backend: a dict with an `"error"`, or the text and the tokens it used. */
  datatype BackendReply = Failed(error: string) | Succeeded(text: string, totalTokens: nat)

  /** What the outside world does during one media job: whether the download works, the
      decoding, the transcription reply, the token count of the transcript and whether the log
      row's commit succeeds. */
  datatype MediaRun = MediaRun(downloaded: bool, decoding: Decoding, reply: BackendReply,
                               transcriptTokens: nat, logCommitted: bool)

  datatype MediaOutcome =
    | NoMedia
    | TooLong
    | InsufficientCredit(credit: real, cost: real)
    | DownloadFailed
    | DecodeFailed
    | TranscriptionFailed(error: string)
    | Transcribed(cost: real, debited: bool, delivery: Delivery)

  /** A media job costs its declared duration in minutes. */
  function MediaCost(durationSeconds: nat): real
  {
    durationSeconds as real / 60.0
  }

  /** `handle_media_file` for the approved user `snapshot` that `check_user_status` put in
      `context.user_data`: the outcome, the tables after it and the user it leaves there. */
  function MediaJob(t: Tables, snapshot: User, media: Option<MediaFile>, cfg: Settings, run: MediaRun)
    : (r: (MediaOutcome, Tables, User))
    requires cfg.Valid()
    ensures r.0.Transcribed? <==>
              && media.Some?
              && media.value.durationSeconds <= cfg.maxAudioDurationSeconds
              && MediaCost(media.value.durationSeconds) <= snapshot.creditMinutes
              && run.downloaded && run.decoding.Decoded? && run.reply.Succeeded?
    ensures !r.0.Transcribed? ==> r.1 == t && r.2 == snapshot
    ensures r.0.Transcribed? ==> r.0.cost == MediaCost(media.value.durationSeconds)
    ensures r.0.Transcribed? ==> (r.0.debited <==> snapshot.userId in t.users)
    ensures r.0.Transcribed? && r.0.debited ==>
              && r.1 == Adjust(t, snapshot.userId, -r.0.cost, "transcription",
                               Some(MediaDetails(media.value.durationSeconds, media.value.fileName)),
                               run.logCommitted)
              && r.2 == r.1.users[snapshot.userId]
    ensures r.0.Transcribed? && !r.0.debited ==> r.1 == t && r.2 == snapshot
    ensures r.0.Transcribed? ==>
              r.0.delivery == DeliveryFor(Some(r.2), r.1, snapshot.userId, run.reply.text,
                                          SourceInfo(MediaSource, r.0.cost, Some(snapshot.preferredLanguage)),
                                          run.transcriptTokens, cfg)
    ensures t.WellFormed() ==> r.1.WellFormed()
  {
    match media
    case None => (NoMedia, t, snapshot)
    case Some(file) =>
      var cost := MediaCost(file.durationSeconds);
      if file.durationSeconds > cfg.maxAudioDurationSeconds then (TooLong, t, snapshot)
      else if cost > snapshot.creditMinutes then (InsufficientCredit(snapshot.creditMinutes, cost), t, snapshot)
      else if !run.downloaded then (DownloadFailed, t, snapshot)
      else if run.decoding.CouldntDecode? then (DecodeFailed, t, snapshot)
      else if run.reply.Failed? then (TranscriptionFailed(run.reply.error), t, snapshot)
      else
        var debited := snapshot.userId in t.users;
        var t' := if debited then Adjust(t, snapshot.userId, -cost, "transcription",
                                         Some(MediaDetails(file.durationSeconds, file.fileName)),
                                         run.logCommitted)
                  else t;
        var user := if debited then t'.users[snapshot.userId] else snapshot;
        var source := SourceInfo(MediaSource, cost, Some(snapshot.preferredLanguage));
        (Transcribed(cost, debited, DeliveryFor(Some(user), t', snapshot.userId, run.reply.text, source,
                                                run.transcriptTokens, cfg)), t', user)
  }

  /** The length pydub measures never enters the bill: only the declared duration does. */
  lemma MediaIgnoresMeasuredLength(t: Tables, snapshot: User, media: Option<MediaFile>, cfg: Settings,
                                   run: MediaRun, lengthMs: nat)
    requires cfg.Valid() && run.decoding.Decoded?
    ensures MediaJob(t, snapshot, media, cfg, run.(decoding := Decoded(lengthMs)))
            == MediaJob(t, snapshot, media, cfg, run)
  {
  }

  /** When the snapshot is the stored row, as right after the status gate, a media debit never
      takes the balance below zero, and a committed log row keeps it reconciled. */
  lemma MediaDebitWithinCredit(t: Tables, snapshot: User, media: Option<MediaFile>, cfg: Settings, run: MediaRun)
    requires cfg.Valid() && snapshot.userId in t.users && t.users[snapshot.userId] == snapshot
    ensures var (outcome, t', _) := MediaJob(t, snapshot, media, cfg, run);
            outcome.Transcribed? ==>
              && t'.users[snapshot.userId].creditMinutes >= 0.0
              && t'.users[snapshot.userId].creditMinutes == snapshot.creditMinutes - outcome.cost
              && (Reconciled(t, snapshot.userId) && run.logCommitted ==> Reconciled(t', snapshot.userId))
  {
    var (outcome, t', _) := MediaJob(t, snapshot, media, cfg, run);
    if outcome.Transcribed? && Reconciled(t, snapshot.userId) && run.logCommitted {
      AdjustKeepsReconciled(t, snapshot.userId, -outcome.cost, "transcription",
                            Some(MediaDetails(media.value.durationSeconds, media.value.fileName)),
                            snapshot.userId);
    }
  }

  method HandleMediaFile(db: Session, ctx: UserData, media: Option<MediaFile>, cfg: Settings, run: MediaRun)
    returns (outcome: MediaOutcome)
    requires cfg.Valid() && ctx.dbUser.Some?
    modifies db, ctx
    ensures old(db.Valid()) ==> db.Valid()
    ensures ctx.dbUser.Some?
    ensures (outcome, db.State(), ctx.dbUser.value) == MediaJob(old(db.State()), old(ctx.dbUser.value), media, cfg, run)
    ensures outcome.Transcribed? ==> ctx.lastText == Some(run.reply.text) && ctx.isRtl == Some(outcome.delivery.rtl)
    ensures !outcome.Transcribed? ==> ctx.lastText == old(ctx.lastText) && ctx.isRtl == old(ctx.isRtl)
  {
    var snapshot := ctx.dbUser.value;
    if media.None? {
      return NoMedia;
    }
    var file := media.value;
    if file.durationSeconds > cfg.maxAudioDurationSeconds {
      return TooLong;
    }
    var cost := MediaCost(file.durationSeconds);
    if cost > snapshot.creditMinutes {
      return InsufficientCredit(snapshot.creditMinutes, cost);
    }
    if !run.downloaded {
      return DownloadFailed;
    }
    if run.decoding.CouldntDecode? {
      return DecodeFailed;
    }
    if run.reply.Failed? {
      return TranscriptionFailed(run.reply.error);
    }
    var debited := false;
    if snapshot.userId in db.users {
      ApplyAdjust(db, snapshot.userId, -cost, "transcription",
                  Some(MediaDetails(file.durationSeconds, file.fileName)), run.logCommitted);
      ctx.dbUser := Some(db.users[snapshot.userId]);
      debited := true;
    }
    var source := SourceInfo(MediaSource, cost, Some(snapshot.preferredLanguage));
    var delivery := DeliverTranscriptionResult(db, ctx, snapshot.userId, run.reply.text, source,
                                               run.transcriptTokens, cfg);
    outcome := Transcribed(cost, debited, delivery);
  }

  // ---------------------------------------------------------------------------
  // button_callback_handler: the text actions
  // ---------------------------------------------------------------------------

  /** The keys of `ACTIONS_PROMPT_MAPPING`. */
  const ACTIONS: set<string> := {"summary_short", "extract_points", "extract_mom"}

  /** The token count of the full prompt, the backend's reply and the log commit. */
  datatype ActionRun = ActionRun(estimatedTokens: nat, reply: BackendReply, logCommitted: bool)

  datatype ActionOutcome =
    | NotAuthorized
    | NoText
    | UndefinedAction(action: string)
    | ActionInsufficient(credit: real, cost: real)
    | ActionFailed(error: string)
    | ActionDone(cost: real, remainingCredit: real)

  /** A text action pressed by user `fromId` on the remembered text `lastText`: gated on the
      estimated cost of the prompt, billed on the tokens the backend reports. */
  function TextAction(t: Tables, fromId: int, lastText: Option<string>, action: string, cfg: Settings,
                      run: ActionRun): (r: (ActionOutcome, Tables))
    requires cfg.Valid()
    ensures r.0.ActionDone? <==>
              && fromId in t.users && t.users[fromId].status == APPROVED
              && lastText.Some? && lastText.value != ""
              && action in ACTIONS
              && run.estimatedTokens as real / cfg.textTokensToMinutesCoeff <= t.users[fromId].creditMinutes
              && run.reply.Succeeded?
    ensures !r.0.ActionDone? ==> r.1 == t
    ensures r.0.ActionDone? ==>
              && r.0.cost == run.reply.totalTokens as real / cfg.textTokensToMinutesCoeff
              && r.1 == Adjust(t, fromId, -r.0.cost, action, Some(TokensConsumed(run.reply.totalTokens)),
                               run.logCommitted)
              && r.0.remainingCredit == r.1.users[fromId].creditMinutes
    ensures t.WellFormed() ==> r.1.WellFormed()
  {
    if fromId !in t.users || t.users[fromId].status != APPROVED then (NotAuthorized, t)
    else if lastText.None? || lastText.value == "" then (NoText, t)
    else if action !in ACTIONS then (UndefinedAction(action), t)
    else
      var user := t.users[fromId];
      var estimate := run.estimatedTokens as real / cfg.textTokensToMinutesCoeff;
      if estimate > user.creditMinutes then (ActionInsufficient(user.creditMinutes, estimate), t)
      else match run.reply
        case Failed(error) => (ActionFailed(error), t)
        case Succeeded(_, tokens) =>
          var cost := tokens as real / cfg.textTokensToMinutesCoeff;
          var t' := Adjust(t, fromId, -cost, action, Some(TokensConsumed(tokens)), run.logCommitted);
          (ActionDone(cost, t'.users[fromId].creditMinutes), t')
  }

  /** The gate looks at the estimate only, so the bill can exceed what the gate allowed: a user
      with 1 minute, an estimate of nothing and a reply of 3840 tokens at 1920 tokens a minute
      ends at -1 minute. */
  lemma TextDebitCanOverdraw()
    ensures var user := User(7, "a", None, APPROVED, 1.0, "fa");
            var t := Tables(map[7 := user], []);
            var cfg := Settings(1, DEFAULT_MAX_AUDIO_DURATION_SECONDS, DEFAULT_TEXT_TOKENS_TO_MINUTES_COEFF);
            var r := TextAction(t, 7, Some("text"), "summary_short", cfg, ActionRun(0, Succeeded("ok", 3840), true));
            r.0.ActionDone? && r.1.users[7].creditMinutes == -1.0
  {
  }

  /** A successful action's balance is the old balance less the reported cost; it stays at or
      above zero exactly when that cost is within the old balance. */
  lemma TextActionBalance(t: Tables, fromId: int, lastText: Option<string>, action: string, cfg: Settings,
                          run: ActionRun)
    requires cfg.Valid()
    ensures var r := TextAction(t, fromId, lastText, action, cfg, run);
            r.0.ActionDone? ==>
              && r.1.users[fromId].creditMinutes == t.users[fromId].creditMinutes - r.0.cost
              && (r.1.users[fromId].creditMinutes >= 0.0 <==> r.0.cost <= t.users[fromId].creditMinutes)
  {
  }

  method HandleActionButton(db: Session, ctx: UserData, fromId: int, action: string, cfg: Settings,
                            run: ActionRun) returns (outcome: ActionOutcome)
    requires cfg.Valid()
    modifies db
    ensures old(db.Valid()) ==> db.Valid()
    ensures (outcome, db.State()) == TextAction(old(db.State()), fromId, ctx.lastText, action, cfg, run)
  {
    if fromId !in db.users || db.users[fromId].status != APPROVED {
      return NotAuthorized;
    }
    var text := ctx.lastText;
    if text.None? || text.value == "" {
      return NoText;
    }
    if action !in ACTIONS {
      return UndefinedAction(action);
    }
    var user := db.users[fromId];
    var estimate := run.estimatedTokens as real / cfg.textTokensToMinutesCoeff;
    if estimate > user.creditMinutes {
      return ActionInsufficient(user.creditMinutes, estimate);
    }
    if run.reply.Failed? {
      return ActionFailed(run.reply.error);
    }
    var tokens := run.reply.totalTokens;
    var cost := tokens as real / cfg.textTokensToMinutesCoeff;
    ApplyAdjust(db, fromId, -cost, action, Some(TokensConsumed(tokens)), run.logCommitted);
    outcome := ActionDone(cost, db.users[fromId].creditMinutes);
  }

  // ---------------------------------------------------------------------------
  // approval_callback_handler
  // ---------------------------------------------------------------------------

  /** The data of the admin's buttons, `f"{action}:{user_id}"`. */
  function ApprovalCallbackData(action: string, userId: int): string
  {
    action + ":" + IntToString(userId)
  }

  /** `action, id_str = data.split(':'); int(id_str)`, `None` where Python raises. */
  function ParseApprovalData(data: string): Option<(string, int)>
  {
    var fields := Split(data, ':');
    if |fields| != 2 then None
    else match ParseInt(fields[1])
      case None => None
      case Some(id) => Some((fields[0], id))
  }

  /** The data written on a button reads back as the action and user it was written for. */
  lemma ApprovalDataRoundTrip(action: string, userId: int)
    requires ':' !in action
    ensures ParseApprovalData(ApprovalCallbackData(action, userId)) == Some((action, userId))
  {
    var digits := IntToString(userId);
    assert ':' !in digits by {
      forall i | 0 <= i < |digits| ensures digits[i] != ':' {
        assert IsDigit(digits[i]) || digits[i] == '-';
      }
    }
    assert Join([action, digits], ':') == ApprovalCallbackData(action, userId);
    SplitJoin([action, digits], ':');
    ParseIntRoundTrip(userId);
  }

  datatype ApprovalOutcome =
    | IgnoredNonAdmin
    | InvalidCallbackData
    | TargetNotFound(targetId: int)
    | UserApproved(targetId: int)
    | UserRejected(targetId: int)
    | NoSuchDecision(action: string)

  /** A press of approve or reject by `callerId`. Approving sets the status and overwrites the
      balance with the starting credit; rejecting sets the status and leaves the balance. */
  function Approval(t: Tables, callerId: int, data: string, cfg: Settings, committed: bool)
    : (r: (ApprovalOutcome, Tables))
    ensures var parsed := ParseApprovalData(data);
            r.0.UserApproved? <==>
              callerId == cfg.adminUserId && parsed.Some? && parsed.value.0 == "approve" && parsed.value.1 in t.users
    ensures var parsed := ParseApprovalData(data);
            r.0.UserRejected? <==>
              callerId == cfg.adminUserId && parsed.Some? && parsed.value.0 == "reject" && parsed.value.1 in t.users
    ensures r.0.UserApproved? || r.0.UserRejected? ==> r.0.targetId == ParseApprovalData(data).value.1
    ensures r.0.UserApproved? ==>
              var id := r.0.targetId;
              && id in t.users
              && r.1.users == t.users[id := t.users[id].(status := APPROVED, creditMinutes := DEFAULT_CREDIT_MINUTES)]
              && r.1.logs == if committed then t.logs + [ActivityLog(id, "admin_approval", DEFAULT_CREDIT_MINUTES,
                                                                     Some(ApprovedBy(callerId)))]
                             else t.logs
    ensures r.0.UserRejected? ==>
              var id := r.0.targetId;
              && id in t.users
              && r.1.users == t.users[id := t.users[id].(status := REJECTED)]
              && r.1.logs == if committed then t.logs + [ActivityLog(id, "admin_rejection", 0.0, Some(RejectedBy(callerId)))]
                             else t.logs
    ensures !r.0.UserApproved? && !r.0.UserRejected? ==> r.1 == t
    ensures t.WellFormed() ==> r.1.WellFormed()
  {
    if callerId != cfg.adminUserId then (IgnoredNonAdmin, t)
    else match ParseApprovalData(data)
      case None => (InvalidCallbackData, t)
      case Some((action, id)) =>
        if id !in t.users then (TargetNotFound(id), t)
        else
          var u := t.users[id];
          if action == "approve" then
            var users := t.users[id := u.(status := APPROVED, creditMinutes := DEFAULT_CREDIT_MINUTES)];
            (UserApproved(id), AppendLog(Tables(users, t.logs),
                                         ActivityLog(id, "admin_approval", DEFAULT_CREDIT_MINUTES, Some(ApprovedBy(callerId))),
                                         committed))
          else if action == "reject" then
            var users := t.users[id := u.(status := REJECTED)];
            (UserRejected(id), AppendLog(Tables(users, t.logs),
                                         ActivityLog(id, "admin_rejection", 0.0, Some(RejectedBy(callerId))),
                                         committed))
          else (NoSuchDecision(action), t)
  }

  /** Approval grants the starting credit by overwriting, not adding: approving a second time
      leaves every balance and status as the first approval did. */
  lemma ApproveTwiceSameUsers(t: Tables, callerId: int, data: string, cfg: Settings, committed: bool)
    requires Approval(t, callerId, data, cfg, committed).0.UserApproved?
    ensures var once := Approval(t, callerId, data, cfg, committed).1;
            var twice := Approval(once, callerId, data, cfg, committed);
            twice.0.UserApproved? && twice.1.users == once.users
  {
  }

  /** After an approval whose log row is committed, the balance agrees with the log exactly
      when it did before and the balance was zero: approval is not a logged transfer. */
  lemma ApprovalReconciledIffFromZero(t: Tables, callerId: int, data: string, cfg: Settings)
    requires Approval(t, callerId, data, cfg, true).0.UserApproved?
    ensures var id := Approval(t, callerId, data, cfg, true).0.targetId;
            Reconciled(t, id) ==>
              (Reconciled(Approval(t, callerId, data, cfg, true).1, id) <==> t.users[id].creditMinutes == 0.0)
  {
    var (outcome, t') := Approval(t, callerId, data, cfg, true);
    var id := outcome.targetId;
    LoggedTotalAppend(t.logs, ActivityLog(id, "admin_approval", DEFAULT_CREDIT_MINUTES, Some(ApprovedBy(callerId))), id);
  }

  /** The buttons `check_user_status` sends the admin for a new user do what they say. */
  lemma ApprovalButtons(t: Tables, cfg: Settings, userId: int, committed: bool)
    requires userId in t.users
    ensures Approval(t, cfg.adminUserId, ApprovalCallbackData("approve", userId), cfg, committed).0 == UserApproved(userId)
    ensures Approval(t, cfg.adminUserId, ApprovalCallbackData("reject", userId), cfg, committed).0 == UserRejected(userId)
  {
    ApprovalDataRoundTrip("approve", userId);
    ApprovalDataRoundTrip("reject", userId);
  }

  method HandleApproval(db: Session, callerId: int, data: string, cfg: Settings, committed: bool)
    returns (outcome: ApprovalOutcome)
    modifies db
    ensures old(db.Valid()) ==> db.Valid()
    ensures (outcome, db.State()) == Approval(old(db.State()), callerId, data, cfg, committed)
  {
    if callerId != cfg.adminUserId {
      return IgnoredNonAdmin;
    }
    var parsed := ParseApprovalData(data);
    if parsed.None? {
      return InvalidCallbackData;
    }
    var (action, id) := parsed.value;
    if id !in db.users {
      return TargetNotFound(id);
    }
    var u := db.users[id];
    if action == "approve" {
      db.users := db.users[id := u.(status := APPROVED, creditMinutes := DEFAULT_CREDIT_MINUTES)];
      LogActivity(db, id, "admin_approval", DEFAULT_CREDIT_MINUTES, Some(ApprovedBy(callerId)), committed);
      outcome := UserApproved(id);
    } else if action == "reject" {
      db.users := db.users[id := u.(status := REJECTED)];
      LogActivity(db, id, "admin_rejection", 0.0, Some(RejectedBy(callerId)), committed);
      outcome := UserRejected(id);
    } else {
      outcome := NoSuchDecision(action);
    }
  }

  // ---------------------------------------------------------------------------
  // The admin commands /add_credit and /set_status
  // ---------------------------------------------------------------------------

  /** `admin_only`: there is a sender and it is the configured admin. */
  predicate IsAdmin(caller: Option<int>, cfg: Settings)
  {
    caller.Some? && caller.value == cfg.adminUserId
  }

  datatype AdminOutcome =
    | NotAdmin
    | Usage
    | InvalidArguments
    | NoSuchUser(targetId: int)
    | CreditAdded(targetId: int, minutes: real, newCredit: real)
    | StatusSet(targetId: int, status: string)

  /** `/add_credit <user_id> <minutes>`: any amount a float parses to, negative ones included. */
  function AddCredit(t: Tables, caller: Option<int>, args: seq<string>, cfg: Settings, committed: bool)
    : (r: (AdminOutcome, Tables))
    ensures r.0.CreditAdded? <==>
              && IsAdmin(caller, cfg) && |args| == 2
              && ParseInt(args[0]).Some? && ParseDecimal(args[1]).Some?
              && ParseInt(args[0]).value in t.users
    ensures r.0.CreditAdded? ==>
              && r.0.targetId == ParseInt(args[0]).value && r.0.minutes == ParseDecimal(args[1]).value
              && r.1 == Adjust(t, r.0.targetId, r.0.minutes, "admin_add_credit", Some(AddedBy(caller.value)), committed)
              && r.0.newCredit == t.users[r.0.targetId].creditMinutes + r.0.minutes
    ensures !r.0.CreditAdded? ==> r.1 == t
    ensures t.WellFormed() ==> r.1.WellFormed()
  {
    if !IsAdmin(caller, cfg) then (NotAdmin, t)
    else if |args| != 2 then (Usage, t)
    else match (ParseInt(args[0]), ParseDecimal(args[1]))
      case (Some(id), Some(minutes)) =>
        if id !in t.users then (NoSuchUser(id), t)
        else
          var t' := Adjust(t, id, minutes, "admin_add_credit", Some(AddedBy(caller.value)), committed);
          (CreditAdded(id, minutes, t'.users[id].creditMinutes), t')
      case _ => (InvalidArguments, t)
  }

  /** `/add_credit` given the decimal texts of a user id and a whole number of minutes adds
      exactly those minutes to that user, whatever their sign. */
  lemma AddCreditRoundTrip(t: Tables, cfg: Settings, userId: int, minutes: int, committed: bool)
    requires userId in t.users
    ensures var r := AddCredit(t, Some(cfg.adminUserId), [IntToString(userId), IntToString(minutes)], cfg, committed);
            r.0 == CreditAdded(userId, minutes as real, t.users[userId].creditMinutes + minutes as real)
  {
    ParseIntRoundTrip(userId);
    ParseIntRoundTrip(minutes);
    ParseDecimalExtendsParseInt(IntToString(minutes));
  }

  /** A committed `/add_credit` keeps the balance in agreement with the log. */
  lemma AddCreditKeepsReconciled(t: Tables, caller: Option<int>, args: seq<string>, cfg: Settings, other: int)
    requires Reconciled(t, other)
    ensures Reconciled(AddCredit(t, caller, args, cfg, true).1, other)
  {
    var (outcome, _) := AddCredit(t, caller, args, cfg, true);
    if outcome.CreditAdded? {
      AdjustKeepsReconciled(t, outcome.targetId, outcome.minutes, "admin_add_credit", Some(AddedBy(caller.value)), other);
    }
  }

  method HandleAddCredit(db: Session, caller: Option<int>, args: seq<string>, cfg: Settings, committed: bool)
    returns (outcome: AdminOutcome)
    modifies db
    ensures old(db.Valid()) ==> db.Valid()
    ensures (outcome, db.State()) == AddCredit(old(db.State()), caller, args, cfg, committed)
  {
    if !IsAdmin(caller, cfg) {
      return NotAdmin;
    }
    if |args| != 2 {
      return Usage;
    }
    var id, minutes := ParseInt(args[0]), ParseDecimal(args[1]);
    if id.None? || minutes.None? {
      return InvalidArguments;
    }
    if id.value !in db.users {
      return NoSuchUser(id.value);
    }
    ApplyAdjust(db, id.value, minutes.value, "admin_add_credit", Some(AddedBy(caller.value)), committed);
    outcome := CreditAdded(id.value, minutes.value, db.users[id.value].creditMinutes);
  }

  const VALID_STATUSES: seq<string> := [APPROVED, PENDING, REJECTED, BANNED]

  /** `/set_status <user_id> <status>` for one of the four statuses; it logs a zero change. */
  function SetStatus(t: Tables, caller: Option<int>, args: seq<string>, cfg: Settings, committed: bool)
    : (r: (AdminOutcome, Tables))
    ensures r.0.StatusSet? <==>
              && IsAdmin(caller, cfg) && |args| == 2 && args[1] in VALID_STATUSES
              && ParseInt(args[0]).Some? && ParseInt(args[0]).value in t.users
    ensures r.0.StatusSet? ==>
              var id := r.0.targetId;
              && id == ParseInt(args[0]).value && r.0.status == args[1]
              && r.1.users == t.users[id := t.users[id].(status := args[1])]
              && r.1.logs == if committed then t.logs + [ActivityLog(id, "admin_set_status_" + args[1], 0.0,
                                                                     Some(SetBy(caller.value)))]
                             else t.logs
    ensures !r.0.StatusSet? ==> r.1 == t
    ensures forall id :: id in t.users ==> id in r.1.users && r.1.users[id].creditMinutes == t.users[id].creditMinutes
    ensures t.WellFormed() ==> r.1.WellFormed()
  {
    if !IsAdmin(caller, cfg) then (NotAdmin, t)
    else if |args| != 2 || args[1] !in VALID_STATUSES then (Usage, t)
    else match ParseInt(args[0])
      case None => (InvalidArguments, t)
      case Some(id) =>
        if id !in t.users then (NoSuchUser(id), t)
        else
          var users := t.users[id := t.users[id].(status := args[1])];
          (StatusSet(id, args[1]), AppendLog(Tables(users, t.logs),
                                             ActivityLog(id, "admin_set_status_" + args[1], 0.0, Some(SetBy(caller.value))),
                                             committed))
  }

  /** `/set_status` never moves money: whether or not its log row is kept, every balance still
      agrees with the log if it did before. */
  lemma SetStatusKeepsReconciled(t: Tables, caller: Option<int>, args: seq<string>, cfg: Settings,
                                 committed: bool, other: int)
    requires Reconciled(t, other)
    ensures Reconciled(SetStatus(t, caller, args, cfg, committed).1, other)
  {
    var (outcome, _) := SetStatus(t, caller, args, cfg, committed);
    if outcome.StatusSet? && committed {
      LoggedTotalAppend(t.logs, ActivityLog(outcome.targetId, "admin_set_status_" + args[1], 0.0,
                                            Some(SetBy(caller.value))), other);
    }
  }

  method HandleSetStatus(db: Session, caller: Option<int>, args: seq<string>, cfg: Settings, committed: bool)
    returns (outcome: AdminOutcome)
    modifies db
    ensures old(db.Valid()) ==> db.Valid()
    ensures (outcome, db.State()) == SetStatus(old(db.State()), caller, args, cfg, committed)
  {
    if !IsAdmin(caller, cfg) {
      return NotAdmin;
    }
    if |args| != 2 || args[1] !in VALID_STATUSES {
      return Usage;
    }
    var id := ParseInt(args[0]);
    if id.None? {
      return InvalidArguments;
    }
    if id.value !in db.users {
      return NoSuchUser(id.value);
    }
    var u := db.users[id.value];
    db.users := db.users[id.value := u.(status := args[1])];
    LogActivity(db, id.value, "admin_set_status_" + args[1], 0.0, Some(SetBy(caller.value)), committed);
    outcome := StatusSet(id.value, args[1]);
  }

  // ---------------------------------------------------------------------------
  // set_language_callback_handler
  // ---------------------------------------------------------------------------

  /** The data of the language buttons, `set_lang:<code>`. */
  function LanguageCallbackData(code: string): string
  {
    "set_lang:" + code
  }

  datatype LanguageOutcome = InvalidLanguageData | ProfileNotFound | AlreadySet | LanguageUpdated(code: string)

  /** A language button pressed by `fromId`: the part after the one ':' becomes the preferred
      language. Nothing is logged and nothing but that one column changes. */
  function SetLanguage(t: Tables, fromId: int, data: string): (r: (LanguageOutcome, Tables))
    ensures r.1.logs == t.logs && r.1.users.Keys == t.users.Keys
    ensures var fields := Split(data, ':');
            r.0.LanguageUpdated? <==>
              |fields| == 2 && fromId in t.users && t.users[fromId].preferredLanguage != fields[1]
    ensures r.0.LanguageUpdated? ==>
              r.0.code == Split(data, ':')[1]
              && r.1.users == t.users[fromId := t.users[fromId].(preferredLanguage := r.0.code)]
    ensures !r.0.LanguageUpdated? ==> r.1 == t
    ensures t.WellFormed() ==> r.1.WellFormed()
  {
    var fields := Split(data, ':');
    if |fields| != 2 then (InvalidLanguageData, t)
    else if fromId !in t.users then (ProfileNotFound, t)
    else if t.users[fromId].preferredLanguage == fields[1] then (AlreadySet, t)
    else
      var u := t.users[fromId];
      (LanguageUpdated(fields[1]), Tables(t.users[fromId := u.(preferredLanguage := fields[1])], t.logs))
  }

  /** A language button leaves its code as the user's language, and pressing it again is
      answered as already set without a change. */
  lemma LanguageButtonRoundTrip(t: Tables, fromId: int, code: string)
    requires ':' !in code && fromId in t.users
    ensures var once := SetLanguage(t, fromId, LanguageCallbackData(code));
            && once.1.users[fromId].preferredLanguage == code
            && SetLanguage(once.1, fromId, LanguageCallbackData(code)) == (AlreadySet, once.1)
  {
    assert Join(["set_lang", code], ':') == LanguageCallbackData(code);
    SplitJoin(["set_lang", code], ':');
  }

  method HandleSetLanguage(db: Session, fromId: int, data: string) returns (outcome: LanguageOutcome)
    modifies db
    ensures old(db.Valid()) ==> db.Valid()
    ensures (outcome, db.State()) == SetLanguage(old(db.State()), fromId, data)
  {
    var fields := Split(data, ':');
    if |fields| != 2 {
      return InvalidLanguageData;
    }
    if fromId !in db.users {
      return ProfileNotFound;
    }
    var u := db.users[fromId];
    if u.preferredLanguage == fields[1] {
      return AlreadySet;
    }
    db.users := db.users[fromId := u.(preferredLanguage := fields[1])];
    outcome := LanguageUpdated(fields[1]);
  }

  // ---------------------------------------------------------------------------
  // handle_text_input
  // ---------------------------------------------------------------------------

  /** An incoming message: its text, and for a document the text extracted from it (`None`
      when extraction failed). */
  datatype InputMessage = InputMessage(text: string, document: Option<Option<string>>)

  datatype TextInputOutcome = UnsupportedMessage | DocumentUnreadable | TextReceived(text: string, estimates: Estimates)

  /** A non-empty text is taken as it is, otherwise the text of the document. */
  function TextInput(message: InputMessage, tokens: nat, cfg: Settings): (r: TextInputOutcome)
    requires cfg.Valid()
    ensures r.TextReceived? <==> message.text != "" || (message.document.Some? && message.document.value.Some?)
    ensures r.TextReceived? ==> r.text == if message.text != "" then message.text else message.document.value.value
    ensures r.TextReceived? ==> r.estimates == ActionEstimates(tokens, cfg.textTokensToMinutesCoeff)
    ensures r.TextReceived? ==>
              tokens as real / cfg.textTokensToMinutesCoeff < r.estimates.summaryShort
              <= r.estimates.extractMinutes <= r.estimates.extractPoints
  {
    var text :=
      if message.text != "" then Some(message.text)
      else if message.document.Some? then message.document.value
      else None;
    match text
    case Some(s) => TextReceived(s, ActionEstimates(tokens, cfg.textTokensToMinutesCoeff))
    case None => if message.document.Some? then DocumentUnreadable else UnsupportedMessage
  }

  /** `handle_text_input`: the received text becomes the text later actions work on.
      `tokens` is the token count reported for it. */
  method HandleTextInput(ctx: UserData, message: InputMessage, tokens: nat, cfg: Settings)
    returns (outcome: TextInputOutcome)
    requires cfg.Valid()
    modifies ctx
    ensures outcome == TextInput(message, tokens, cfg)
    ensures ctx.lastText == if outcome.TextReceived? then Some(outcome.text) else old(ctx.lastText)
    ensures ctx.dbUser == old(ctx.dbUser) && ctx.isRtl == old(ctx.isRtl)
  {
    var text: string;
    if message.text != "" {
      text := message.text;
    } else if message.document.Some? {
      if message.document.value.None? {
        return DocumentUnreadable;
      }
      text := message.document.value.value;
    } else {
      return UnsupportedMessage;
    }
    ctx.lastText := Some(text);
    outcome := TextReceived(text, ActionEstimates(tokens, cfg.textTokensToMinutesCoeff));
  }

  // ---------------------------------------------------------------------------
  // handle_text_file
  // ---------------------------------------------------------------------------

  datatype TextFileOutcome = InvalidTextFile | TextFileFailed | TextFileReceived(text: string, estimates: Estimates)

  /** An uploaded document whose MIME type starts with `text/`. `content` is the file read as
      UTF-8, `None` when downloading, reading or decoding it failed. Unlike `TextInput`, an
      empty file is accepted. */
  function TextFile(mimeType: string, content: Option<string>, tokens: nat, cfg: Settings): (r: TextFileOutcome)
    requires cfg.Valid()
    ensures r.InvalidTextFile? <==> !("text/" <= mimeType)
    ensures r.TextFileReceived? <==> "text/" <= mimeType && content.Some?
    ensures r.TextFileReceived? ==>
              r.text == content.value && r.estimates == ActionEstimates(tokens, cfg.textTokensToMinutesCoeff)
  {
    if !("text/" <= mimeType) then InvalidTextFile
    else match content
      case None => TextFileFailed
      case Some(text) => TextFileReceived(text, ActionEstimates(tokens, cfg.textTokensToMinutesCoeff))
  }

  /** A non-empty text file is received exactly as the same text sent as a message. */
  lemma TextFileAsTextInput(mimeType: string, text: string, tokens: nat, cfg: Settings)
    requires cfg.Valid() && "text/" <= mimeType && text != ""
    ensures var f := TextFile(mimeType, Some(text), tokens, cfg);
            var m := TextInput(InputMessage(text, None), tokens, cfg);
            && f.TextFileReceived? && m.TextReceived?
            && f.text == m.text && f.estimates == m.estimates
  {
  }

  /** `handle_text_file`: a received file becomes the text later actions work on. */
  method HandleTextFile(ctx: UserData, mimeType: string, content: Option<string>, tokens: nat, cfg: Settings)
    returns (outcome: TextFileOutcome)
    requires cfg.Valid()
    modifies ctx
    ensures outcome == TextFile(mimeType, content, tokens, cfg)
    ensures ctx.lastText == if outcome.TextFileReceived? then Some(outcome.text) else old(ctx.lastText)
    ensures ctx.dbUser == old(ctx.dbUser) && ctx.isRtl == old(ctx.isRtl)
  {
    if !("text/" <= mimeType) {
      return InvalidTextFile;
    }
    if content.None? {
      return TextFileFailed;
    }
    ctx.lastText := content;
    outcome := TextFileReceived(content.value, ActionEstimates(tokens, cfg.textTokensToMinutesCoeff));
  }

  // ---------------------------------------------------------------------------
  // get_yt_video_id and the yt: buttons
  // ---------------------------------------------------------------------------

  const WATCH_MARKER: string := "watch?v="
  const SHORT_LINK_MARKER: string := "youtu.be/"
  const LIVE_MARKER: string := "/live/"
  const SHORTS_MARKER: string := "/shorts/"

  /** `url.split(marker)[1].split(cut)[0]` for a one-character `cut`: what follows the first
      `marker`, up to the first `cut` or the next `marker`, whichever comes first. */
  function IdAfter(url: string, marker: string, cut: char): (id: string)
    requires |marker| > 0 && Contains(url, marker)
    ensures id <= AfterFirst(url, marker)
    ensures !Contains(id, [cut]) && !Contains(id, marker)
    ensures || id == AfterFirst(url, marker)
            || OccursAt(AfterFirst(url, marker), [cut], |id|)
            || OccursAt(AfterFirst(url, marker), marker, |id|)
    ensures forall j :: 0 <= j < |id| ==>
              !OccursAt(AfterFirst(url, marker), [cut], j) && !OccursAt(AfterFirst(url, marker), marker, j)
  {
    var after := AfterFirst(url, marker);
    var field := SecondField(url, marker);
    var id := BeforeFirst(field, [cut]);
    NotContainsPrefix(id, field, marker);
    OccursAtExtends(field, after, [cut], |id|);
    forall j | 0 <= j < |id| ensures !OccursAt(after, [cut], j) {
      OccursAtShrinks(field, after, [cut], j);
    }
    id
  }

  /** `get_yt_video_id`: the markers are tried in a fixed order and the first one present
      decides; a URL with none of them has no id. */
  function GetYtVideoId(url: string): (r: Option<string>)
    ensures r.None? <==>
              !Contains(url, WATCH_MARKER) && !Contains(url, SHORT_LINK_MARKER)
              && !Contains(url, LIVE_MARKER) && !Contains(url, SHORTS_MARKER)
    ensures Contains(url, WATCH_MARKER) ==> r == Some(IdAfter(url, WATCH_MARKER, '&'))
    ensures !Contains(url, WATCH_MARKER) && Contains(url, SHORT_LINK_MARKER) ==>
              r == Some(IdAfter(url, SHORT_LINK_MARKER, '?'))
    ensures !Contains(url, WATCH_MARKER) && !Contains(url, SHORT_LINK_MARKER) && Contains(url, LIVE_MARKER) ==>
              r == Some(IdAfter(url, LIVE_MARKER, '?'))
    ensures (!Contains(url, WATCH_MARKER) && !Contains(url, SHORT_LINK_MARKER) && !Contains(url, LIVE_MARKER)
             && Contains(url, SHORTS_MARKER)) ==> r == Some(IdAfter(url, SHORTS_MARKER, '?'))
  {
    if Contains(url, WATCH_MARKER) then Some(IdAfter(url, WATCH_MARKER, '&'))
    else if Contains(url, SHORT_LINK_MARKER) then Some(IdAfter(url, SHORT_LINK_MARKER, '?'))
    else if Contains(url, LIVE_MARKER) then Some(IdAfter(url, LIVE_MARKER, '?'))
    else if Contains(url, SHORTS_MARKER) then Some(IdAfter(url, SHORTS_MARKER, '?'))
    else None
  }

  /** The data of a transcript-language button, `f"yt:{video_id}:{lang_code}"`. */
  function YoutubeCallbackData(videoId: string, lang: string): string
  {
    "yt:" + videoId + ":" + lang
  }

  /** `_, video_id, lang_code = data.split(':')`, `None` where the unpacking raises. */
  function ParseYoutubeCallback(data: string): Option<(string, string)>
  {
    var fields := Split(data, ':');
    if |fields| == 3 then Some((fields[1], fields[2])) else None
  }

  /** A button's data reads back as its video and language exactly when neither contains ':'. */
  lemma YoutubeCallbackRoundTrip(videoId: string, lang: string)
    ensures ParseYoutubeCallback(YoutubeCallbackData(videoId, lang)) == Some((videoId, lang))
            <==> ':' !in videoId && ':' !in lang
  {
    var data := YoutubeCallbackData(videoId, lang);
    if ':' !in videoId && ':' !in lang {
      YoutubeDataIsJoin(videoId, lang);
      SplitJoin(["yt", videoId, lang], ':');
    } else {
      YoutubeDataFieldCount(videoId, lang);
      if ':' in videoId {
        CountPositive(videoId, ':');
      } else {
        CountPositive(lang, ':');
      }
    }
  }

  lemma YoutubeDataIsJoin(videoId: string, lang: string)
    ensures Join(["yt", videoId, lang], ':') == YoutubeCallbackData(videoId, lang)
  {
    assert ["yt", videoId, lang][1..] == [videoId, lang] && [videoId, lang][1..] == [lang];
    assert Join([videoId, lang], ':') == videoId + [':'] + lang;
    assert Join(["yt", videoId, lang], ':') == "yt" + [':'] + (videoId + [':'] + lang);
  }

  /** The data splits into three fields plus one for every ':' in the video id or the language. */
  lemma YoutubeDataFieldCount(videoId: string, lang: string)
    ensures |Split(YoutubeCallbackData(videoId, lang), ':')| == 3 + Count(videoId, ':') + Count(lang, ':')
  {
    var data := YoutubeCallbackData(videoId, lang);
    SplitLength(data, ':');
    assert data == ("yt:" + videoId) + (":" + lang);
    CountConcat("yt:" + videoId, ":" + lang, ':');
    CountConcat("yt:", videoId, ':');
    CountConcat(":", lang, ':');
    assert Count("yt:", ':') == 1 && Count(":", ':') == 1;
  }

  datatype YoutubeOutcome = InvalidYoutubeData | TranscriptFetchFailed | YoutubeDelivered(videoId: string, lang: string, delivery: Delivery)

  /** `youtube_callback_handler`: `segments` is the fetched transcript, `None` when fetching
      failed; its text is the segments joined by spaces and it costs nothing. */
  function YoutubeCallback(ctxUser: Option<User>, t: Tables, userId: int, data: string,
                           segments: Option<seq<string>>, tokens: nat, cfg: Settings): (r: YoutubeOutcome)
    requires cfg.Valid()
    ensures r.YoutubeDelivered? <==> ParseYoutubeCallback(data).Some? && segments.Some?
    ensures r.YoutubeDelivered? ==>
              && (r.videoId, r.lang) == ParseYoutubeCallback(data).value
              && r.delivery.rtl
              && r.delivery.remainingCredit == RemainingCredit(ctxUser, t, userId)
              && r.delivery.estimates == ActionEstimates(tokens, cfg.textTokensToMinutesCoeff)
              && r.delivery.body == ChooseDelivery(Join(segments.value, ' '))
  {
    match ParseYoutubeCallback(data)
    case None => InvalidYoutubeData
    case Some((videoId, lang)) =>
      match segments
      case None => TranscriptFetchFailed
      case Some(parts) =>
        YoutubeDelivered(videoId, lang, DeliveryFor(ctxUser, t, userId, Join(parts, ' '),
                                                    SourceInfo(YoutubeSource, 0.0, None), tokens, cfg))
  }

  method HandleYoutubeCallback(db: Session, ctx: UserData, userId: int, data: string,
                               segments: Option<seq<string>>, tokens: nat, cfg: Settings)
    returns (outcome: YoutubeOutcome)
    requires cfg.Valid()
    modifies ctx
    ensures outcome == YoutubeCallback(old(ctx.dbUser), db.State(), userId, data, segments, tokens, cfg)
    ensures outcome.YoutubeDelivered? ==> ctx.lastText == Some(Join(segments.value, ' ')) && ctx.isRtl == Some(true)
    ensures !outcome.YoutubeDelivered? ==> ctx.lastText == old(ctx.lastText) && ctx.isRtl == old(ctx.isRtl)
    ensures ctx.dbUser == old(ctx.dbUser)
  {
    var parsed := ParseYoutubeCallback(data);
    if parsed.None? {
      return InvalidYoutubeData;
    }
    if segments.None? {
      return TranscriptFetchFailed;
    }
    var (videoId, lang) := parsed.value;
    var text := Join(segments.value, ' ');
    var delivery := DeliverTranscriptionResult(db, ctx, userId, text, SourceInfo(YoutubeSource, 0.0, None), tokens, cfg);
    outcome := YoutubeDelivered(videoId, lang, delivery);
  }

  // ---------------------------------------------------------------------------
  // Fixed-size chunks of long admin messages
  // ---------------------------------------------------------------------------

  /** `"".join(chunks)`. */
  function Concat(chunks: seq<string>): string
  {
    if |chunks| == 0 then "" else chunks[0] + Concat(chunks[1..])
  }

  /** `[s[i:i + n] for i in range(0, len(s), n)]`. */
  function ChunksOf(s: string, n: nat): seq<string>
    requires n > 0
    decreases |s|
  {
    if |s| == 0 then []
    else if |s| <= n then [s]
    else [s[..n]] + ChunksOf(s[n..], n)
  }

  /** The pieces put back together give `s`. */
  lemma {:induction false} ChunksOfConcat(s: string, n: nat)
    requires n > 0
    ensures Concat(ChunksOf(s, n)) == s
    decreases |s|
  {
    if |s| == 0 {
    } else if |s| <= n {
      assert Concat([s]) == s + Concat([]);
    } else {
      ChunksOfConcat(s[n..], n);
      var chunks := [s[..n]] + ChunksOf(s[n..], n);
      assert chunks[1..] == ChunksOf(s[n..], n);
      assert s[..n] + s[n..] == s;
    }
  }

  /** Every piece is non-empty and at most `n` long, and all but the last are exactly `n`. */
  lemma {:induction false} ChunksOfSizes(s: string, n: nat)
    requires n > 0
    ensures forall i :: 0 <= i < |ChunksOf(s, n)| ==> 0 < |ChunksOf(s, n)[i]| <= n
    ensures forall i :: 0 <= i < |ChunksOf(s, n)| - 1 ==> |ChunksOf(s, n)[i]| == n
    decreases |s|
  {
    if |s| > n {
      ChunksOfSizes(s[n..], n);
      var rest := ChunksOf(s[n..], n);
      var chunks := [s[..n]] + rest;
      forall i | 1 <= i < |chunks| ensures chunks[i] == rest[i - 1] { }
    }
  }

  /** There are `ceil(len(s) / n)` pieces: the least count whose `n`-character pieces cover `s`. */
  lemma {:induction false} ChunksOfCount(s: string, n: nat)
    requires n > 0
    ensures |s| <= |ChunksOf(s, n)| * n < |s| + n
    decreases |s|
  {
    if |s| > n {
      ChunksOfCount(s[n..], n);
      var rest := ChunksOf(s[n..], n);
      assert (1 + |rest|) * n == n + |rest| * n;
    }
  }

  /** One step of the sending loop: the pieces from offset `i` on are the piece starting there
      and the pieces after it. */
  lemma ChunksFrom(message: string, i: nat, n: nat)
    requires n > 0 && i < |message|
    ensures var end := if i + n <= |message| then i + n else |message|;
            ChunksOf(message[i..], n) == [message[i..end]] + ChunksOf(message[end..], n)
  {
    var end := if i + n <= |message| then i + n else |message|;
    var rest := message[i..];
    if |rest| <= n {
      assert rest == message[i..end] && message[end..] == [];
    } else {
      assert rest[..n] == message[i..end] && rest[n..] == message[end..];
    }
  }

  /** The sending loop of `list_users_command`: one chunk per step of 4096 characters, the same
      pieces as `ChunksOf`. */
  method ListUsersChunks(message: string) returns (chunks: seq<string>)
    ensures chunks == ChunksOf(message, TELEGRAM_MESSAGE_LIMIT)
  {
    var limit := TELEGRAM_MESSAGE_LIMIT;
    chunks := [];
    var i := 0;
    while i < |message|
      invariant 0 <= i <= |message|
      invariant chunks + ChunksOf(message[i..], limit) == ChunksOf(message, limit)
    {
      // `message[i:i + limit]`, clipped at the end of the message
      var end := if i + limit <= |message| then i + limit else |message|;
      var piece, later := message[i..end], ChunksOf(message[end..], limit);
      ChunksFrom(message, i, limit);
      assert chunks + ([piece] + later) == (chunks + [piece]) + later;
      chunks := chunks + [piece];
      i := end;
    }
    assert message[i..] == [];
  }
}
