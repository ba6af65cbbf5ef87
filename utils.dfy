/**
  The helpers of utils.py: registering a user and gating handlers on the user's status, writing
  an activity log row, choosing how a transcript is delivered (inline message or document with a
  preview, the caption limit, the cost estimates shown on the action buttons) and the plain-text
  tail of `convert_md_to_html`.
*/
module Utils {
  import opened Wrappers
  import opened Strings
  import opened Config
  import opened Database

  /** `context.user_data`: what the bot remembers for one user between updates. */
  class UserData {
    var dbUser: Option<User>
    var lastText: Option<string>
    var isRtl: Option<bool>

    constructor ()
      ensures dbUser == None && lastText == None && isRtl == None
    {
      dbUser := None;
      lastText := None;
      isRtl := None;
    }
  }

  // ---------------------------------------------------------------------------
  // log_activity
  // ---------------------------------------------------------------------------

  /** The tables after `log_activity`: one more row when its commit succeeds; otherwise the
      session is rolled back and nothing is kept. The users table is never touched. */
  function AppendLog(t: Tables, entry: ActivityLog, committed: bool): (r: Tables)
    ensures r.users == t.users
    ensures r.logs == if committed then t.logs + [entry] else t.logs
    ensures t.WellFormed() && entry.userId in t.users ==> r.WellFormed()
  {
    if committed then Tables(t.users, t.logs + [entry]) else t
  }

  /** `log_activity`: adds one row and commits; a failed commit is rolled back and only reported
      in the process log, so it never undoes a change its caller committed before. */
  method LogActivity(db: Session, userId: int, action: string, creditChange: real,
                     details: Option<LogDetails>, committed: bool)
    modifies db
    ensures old(db.Valid()) && userId in old(db.users) ==> db.Valid()
    ensures db.State() == AppendLog(old(db.State()), ActivityLog(userId, action, creditChange, details), committed)
  {
    if committed {
      db.logs := db.logs + [ActivityLog(userId, action, creditChange, details)];
    }
  }

  // ---------------------------------------------------------------------------
  // get_or_create_user and the check_user_status gate
  // ---------------------------------------------------------------------------

  /** `get_or_create_user`: the stored row and `false`, or a new pending row and `true`. */
  function Registered(t: Tables, userId: int, firstName: string, username: Option<string>): (r: (User, bool, Tables))
    ensures userId in r.2.users && r.2.users[userId] == r.0
    ensures r.1 <==> userId !in t.users
    ensures !r.1 ==> r.2 == t
    ensures r.1 ==> r.2 == Tables(t.users[userId := r.0], t.logs)
    ensures r.1 ==> r.0.userId == userId && r.0.status == PENDING && r.0.creditMinutes == 0.0
                    && r.0.preferredLanguage == "fa"
    ensures t.WellFormed() ==> r.2.WellFormed()
  {
    if userId in t.users then (t.users[userId], false, t)
    else
      var u := NewUser(userId, firstName, username);
      (u, true, Tables(t.users[userId := u], t.logs))
  }

  /** A second registration of the same id finds the row the first one stored and changes nothing. */
  lemma RegistrationIdempotent(t: Tables, userId: int, firstName: string, username: Option<string>,
                               firstName': string, username': Option<string>)
    ensures var (u, _, t1) := Registered(t, userId, firstName, username);
            Registered(t1, userId, firstName', username') == (u, false, t1)
  {
  }

  method GetOrCreateUser(db: Session, userId: int, firstName: string, username: Option<string>)
    returns (user: User, isNew: bool)
    modifies db
    ensures old(db.Valid()) ==> db.Valid()
    ensures (user, isNew, db.State()) == Registered(old(db.State()), userId, firstName, username)
  {
    if userId in db.users {
      return db.users[userId], false;
    }
    user := NewUser(userId, firstName, username);
    db.users := db.users[userId := user];
    isNew := true;
  }

  /** The sender of an update (`update.effective_user`). */
  datatype TelegramUser = TelegramUser(id: int, firstName: string, username: Option<string>)

  /** Where `check_user_status` stops, or `Proceed` when it runs the wrapped handler. */
  datatype GateResult =
    | NoEffectiveUser
    | NewUserGreeted(user: User)
    | PendingNotice
    | RejectedNotice
    | StatusUnhandled(status: string)
    | Proceed(user: User)

  /** `check_user_status`: registers an unknown sender, then lets only an already approved user
      through. The only change it makes is the registration. */
  function Gate(t: Tables, effective: Option<TelegramUser>): (r: (GateResult, Tables))
    ensures r.0.Proceed? <==> effective.Some? && effective.value.id in t.users
                              && t.users[effective.value.id].status == APPROVED
    ensures r.0.Proceed? ==> r.0.user == t.users[effective.value.id]
    ensures r.0.NoEffectiveUser? <==> effective.None?
    ensures r.0.NewUserGreeted? <==> effective.Some? && effective.value.id !in t.users
    ensures effective.Some? && effective.value.id !in t.users ==>
              var (user, _, t') := Registered(t, effective.value.id, effective.value.firstName, effective.value.username);
              r == (NewUserGreeted(user), t')
    ensures r.0.PendingNotice? <==> effective.Some? && effective.value.id in t.users
                                    && t.users[effective.value.id].status == PENDING
    ensures r.0.RejectedNotice? <==> effective.Some? && effective.value.id in t.users
                                     && (t.users[effective.value.id].status == REJECTED
                                         || t.users[effective.value.id].status == BANNED)
    ensures r.1.logs == t.logs
    ensures effective.None? || effective.value.id in t.users ==> r.1 == t
    ensures t.WellFormed() ==> r.1.WellFormed()
  {
    match effective
    case None => (NoEffectiveUser, t)
    case Some(e) =>
      var (user, isNew, t') := Registered(t, e.id, e.firstName, e.username);
      if isNew then (NewUserGreeted(user), t')
      else if user.status == PENDING then (PendingNotice, t')
      else if user.status == REJECTED || user.status == BANNED then (RejectedNotice, t')
      else if user.status == APPROVED then (Proceed(user), t')
      else (StatusUnhandled(user.status), t')
  }

  /** The decorator up to the call of the wrapped handler, which it makes when `gate` is `Proceed`. */
  method CheckUserStatus(db: Session, ctx: UserData, effective: Option<TelegramUser>) returns (gate: GateResult)
    modifies db, ctx
    ensures old(db.Valid()) ==> db.Valid()
    ensures (gate, db.State()) == Gate(old(db.State()), effective)
    ensures ctx.dbUser == if gate.Proceed? then Some(gate.user) else old(ctx.dbUser)
    ensures ctx.lastText == old(ctx.lastText) && ctx.isRtl == old(ctx.isRtl)
  {
    if effective.None? {
      return NoEffectiveUser;
    }
    var e := effective.value;
    var user, isNew := GetOrCreateUser(db, e.id, e.firstName, e.username);
    if isNew {
      // the admin is sent approve/reject buttons and the user a greeting
      return NewUserGreeted(user);
    }
    if user.status == PENDING {
      return PendingNotice;
    }
    if user.status == REJECTED || user.status == BANNED {
      return RejectedNotice;
    }
    if user.status == APPROVED {
      ctx.dbUser := Some(user);
      return Proceed(user);
    }
    gate := StatusUnhandled(user.status);
  }

  // ---------------------------------------------------------------------------
  // deliver_transcription_result
  // ---------------------------------------------------------------------------

  const TELEGRAM_MESSAGE_LIMIT: nat := 4096
  const TELEGRAM_CAPTION_LIMIT: nat := 1024
  /** A transcript shorter than this is sent inside a message. */
  const INLINE_LIMIT: nat := TELEGRAM_MESSAGE_LIMIT - 500
  /** How much of a long transcript the document's caption previews. */
  const PREVIEW_LENGTH: nat := 600
  /** Where an over-long caption is cut before the continuation marker is added. */
  const CAPTION_CUT: nat := TELEGRAM_CAPTION_LIMIT - 50
  const RTL_CONTINUED: string := "... (ادامه در فایل)"
  const LTR_CONTINUED: string := "... (continued in file)"

  const RTL_LANGUAGES: seq<string> := ["fa", "ar", "he", "ur"]

  /** `is_rtl_language`. */
  function IsRtlLanguage(lang: string): bool
  {
    lang in RTL_LANGUAGES
  }

  datatype SourceKind = MediaSource | YoutubeSource

  /** The `source_info` dict: where the transcript came from, what it cost, and its language
      (`None` when the dict has no `'language'` key, as for YouTube transcripts). */
  datatype SourceInfo = SourceInfo(kind: SourceKind, cost: real, language: Option<string>)

  /** `source_info.get('language', 'fa')`. */
  function SourceLanguage(source: SourceInfo): string
  {
    source.language.GetOr("fa")
  }

  /** A transcript is delivered right-to-left exactly when its source names no language or
      names Persian, Arabic, Hebrew or Urdu. */
  lemma DeliveryDirection(ctxUser: Option<User>, t: Tables, userId: int, transcript: string,
                          source: SourceInfo, transcriptTokens: nat, cfg: Settings)
    requires cfg.Valid()
    ensures DeliveryFor(ctxUser, t, userId, transcript, source, transcriptTokens, cfg).rtl <==>
              || source.language.None?
              || source.language.value == "fa" || source.language.value == "ar"
              || source.language.value == "he" || source.language.value == "ur"
  {
  }

  /** The estimated credit-minute costs shown on the three action buttons. */
  datatype Estimates = Estimates(summaryShort: real, extractPoints: real, extractMinutes: real)

  /** `(tokens + 500) / COEFF`, `(tokens + 2000) / COEFF`, `(tokens + 1000) / COEFF`. */
  function ActionEstimates(tokens: nat, coeff: real): (e: Estimates)
    requires coeff > 0.0
    ensures tokens as real / coeff < e.summaryShort <= e.extractMinutes <= e.extractPoints
    ensures e.extractMinutes - e.summaryShort == 500.0 / coeff
    ensures e.extractPoints - e.extractMinutes == 1000.0 / coeff
  {
    var e := Estimates((tokens + 500) as real / coeff, (tokens + 2000) as real / coeff,
                       (tokens + 1000) as real / coeff);
    DivisionMonotone(tokens as real, (tokens + 500) as real, coeff);
    DivisionMonotone((tokens + 500) as real, (tokens + 1000) as real, coeff);
    DivisionMonotone((tokens + 1000) as real, (tokens + 2000) as real, coeff);
    DivisionDifference((tokens + 1000) as real, (tokens + 500) as real, coeff);
    DivisionDifference((tokens + 2000) as real, (tokens + 1000) as real, coeff);
    e
  }

  lemma DivisionMonotone(a: real, b: real, c: real)
    requires a < b && c > 0.0
    ensures a / c < b / c
  {
    assert b / c - a / c == (b - a) / c;
  }

  lemma DivisionDifference(a: real, b: real, c: real)
    requires c > 0.0
    ensures a / c - b / c == (a - b) / c
  {
  }

  /** How the transcript itself goes out. */
  datatype DeliveryBody = InlineMessage(transcript: string) | AsDocument(preview: string)

  /** Inline when shorter than `INLINE_LIMIT`, otherwise a document whose caption previews the
      first `PREVIEW_LENGTH` characters. */
  function ChooseDelivery(transcript: string): (b: DeliveryBody)
    ensures b.InlineMessage? <==> |transcript| < INLINE_LIMIT
    ensures b.InlineMessage? ==> b.transcript == transcript
    ensures b.AsDocument? ==> |b.preview| == PREVIEW_LENGTH && b.preview <= transcript
  {
    if |transcript| < INLINE_LIMIT then InlineMessage(transcript)
    else AsDocument(transcript[..PREVIEW_LENGTH])
  }

  /** The caption safety check: a caption over the limit keeps its first `CAPTION_CUT`
      characters and ends with a continuation marker, so it never exceeds the limit. */
  function TruncateCaption(caption: string, rtl: bool): (r: string)
    ensures |r| <= TELEGRAM_CAPTION_LIMIT
    ensures |caption| <= TELEGRAM_CAPTION_LIMIT ==> r == caption
    ensures |caption| > TELEGRAM_CAPTION_LIMIT ==>
              |r| > CAPTION_CUT && r[..CAPTION_CUT] == caption[..CAPTION_CUT]
              && r[CAPTION_CUT..] == if rtl then RTL_CONTINUED else LTR_CONTINUED
  {
    if |caption| > TELEGRAM_CAPTION_LIMIT then
      var marker := if rtl then RTL_CONTINUED else LTR_CONTINUED;
      var r := caption[..CAPTION_CUT] + marker;
      assert r[..CAPTION_CUT] == caption[..CAPTION_CUT];
      r
    else caption
  }

  /** Everything `deliver_transcription_result` decides before it talks to Telegram. */
  datatype Delivery = Delivery(rtl: bool, remainingCredit: real, estimates: Estimates, body: DeliveryBody)

  /** The credit shown: the user held in `context.user_data`, else the stored row, else 0. */
  function RemainingCredit(ctxUser: Option<User>, t: Tables, userId: int): real
  {
    match ctxUser
    case Some(u) => u.creditMinutes
    case None => if userId in t.users then t.users[userId].creditMinutes else 0.0
  }

  function DeliveryFor(ctxUser: Option<User>, t: Tables, userId: int, transcript: string,
                       source: SourceInfo, transcriptTokens: nat, cfg: Settings): Delivery
    requires cfg.Valid()
  {
    Delivery(IsRtlLanguage(SourceLanguage(source)), RemainingCredit(ctxUser, t, userId),
             ActionEstimates(transcriptTokens, cfg.textTokensToMinutesCoeff), ChooseDelivery(transcript))
  }

  /** `deliver_transcription_result`: remembers the transcript as the text later actions work on,
      records the direction, and decides the delivery. `transcriptTokens` is what the token
      counter reported for the transcript (0 when counting failed). */
  method DeliverTranscriptionResult(db: Session, ctx: UserData, userId: int, transcript: string,
                                    source: SourceInfo, transcriptTokens: nat, cfg: Settings)
    returns (d: Delivery)
    requires cfg.Valid()
    modifies ctx
    ensures d == DeliveryFor(old(ctx.dbUser), db.State(), userId, transcript, source, transcriptTokens, cfg)
    ensures ctx.lastText == Some(transcript) && ctx.isRtl == Some(d.rtl) && ctx.dbUser == old(ctx.dbUser)
  {
    ctx.lastText := Some(transcript);
    var estimates := ActionEstimates(transcriptTokens, cfg.textTokensToMinutesCoeff);
    var remaining := 0.0;
    if ctx.dbUser.Some? {
      remaining := ctx.dbUser.value.creditMinutes;
    } else if userId in db.users {
      remaining := db.users[userId].creditMinutes;
    }
    var rtl := IsRtlLanguage(SourceLanguage(source));
    ctx.isRtl := Some(rtl);
    d := Delivery(rtl, remaining, estimates, ChooseDelivery(transcript));
  }

  // ---------------------------------------------------------------------------
  // The plain-text tail of convert_md_to_html
  // ---------------------------------------------------------------------------

  /** U+200F RIGHT-TO-LEFT MARK, put at the head of every line for Persian. */
  const RLM: char := '\U{200F}'

  /** No three consecutive newlines. */
  predicate NoTripleNewline(s: string)
  {
    forall i :: 0 <= i && i + 2 < |s| ==> !(s[i] == '\n' && s[i + 1] == '\n' && s[i + 2] == '\n')
  }

  /** The length of the run of newlines `s` starts with. */
  function LeadingNewlines(s: string): (k: nat)
    ensures k <= |s|
    ensures forall i :: 0 <= i < k ==> s[i] == '\n'
    ensures k < |s| ==> s[k] != '\n'
  {
    if |s| > 0 && s[0] == '\n' then 1 + LeadingNewlines(s[1..]) else 0
  }

  /** `re.sub(r'\n{3,}', '\n\n', s)`: every run of three or more newlines becomes two. */
  function CollapseNewlines(s: string): (r: string)
    ensures NoTripleNewline(r)
    ensures |r| == 0 <==> |s| == 0
    ensures |s| > 0 && s[0] != '\n' ==> r[0] == s[0]
    decreases |s|
  {
    if |s| == 0 then ""
    else if s[0] == '\n' then
      var k := LeadingNewlines(s);
      var rest := CollapseNewlines(s[k..]);
      var run := if k >= 3 then "\n\n" else s[..k];
      NoTripleAfterRun(run, rest);
      run + rest
    else
      var rest := CollapseNewlines(s[1..]);
      NoTripleAfterChar(s[0], rest);
      [s[0]] + rest
  }

  /** How the leading run of `s` is rewritten: three or more newlines become exactly two, one or
      two newlines are kept as they are, and a first character that is not a newline is kept. */
  lemma CollapseLeadingRun(s: string)
    ensures var k := LeadingNewlines(s);
            && (k >= 3 ==> CollapseNewlines(s) == "\n\n" + CollapseNewlines(s[k..]))
            && (1 <= k <= 2 ==> CollapseNewlines(s) == s[..k] + CollapseNewlines(s[k..]))
            && (|s| > 0 && k == 0 ==> CollapseNewlines(s) == [s[0]] + CollapseNewlines(s[1..]))
  {
  }

  lemma NoTripleAfterRun(run: string, rest: string)
    requires |run| <= 2 && NoTripleNewline(rest) && (|rest| > 0 ==> rest[0] != '\n')
    ensures NoTripleNewline(run + rest)
  {
    var s := run + rest;
    forall i | 0 <= i && i + 2 < |s| ensures !(s[i] == '\n' && s[i + 1] == '\n' && s[i + 2] == '\n') {
      if i < |run| {
        assert i <= |run| <= i + 2 && s[|run|] == rest[0];
      } else {
        assert s[i] == rest[i - |run|] && s[i + 1] == rest[i + 1 - |run|] && s[i + 2] == rest[i + 2 - |run|];
      }
    }
  }

  lemma NoTripleAfterChar(c: char, rest: string)
    requires c != '\n' && NoTripleNewline(rest)
    ensures NoTripleNewline([c] + rest)
  {
    var s := [c] + rest;
    forall i | 1 <= i && i + 2 < |s| ensures !(s[i] == '\n' && s[i + 1] == '\n' && s[i + 2] == '\n') {
      assert s[i] == rest[i - 1] && s[i + 1] == rest[i] && s[i + 2] == rest[i + 1];
    }
  }

  /** A text that has no run of three newlines is left exactly as it is. */
  lemma {:induction false} CollapseKeepsCleanText(s: string)
    requires NoTripleNewline(s)
    ensures CollapseNewlines(s) == s
    decreases |s|
  {
    if |s| > 0 && s[0] != '\n' {
      NoTripleSlice(s, 1, |s|);
      CollapseKeepsCleanText(s[1..]);
      assert [s[0]] + s[1..] == s;
    } else if |s| > 0 {
      var k := LeadingNewlines(s);
      if |s| >= 3 {
        assert !(s[0] == '\n' && s[1] == '\n' && s[2] == '\n');
      }
      assert k <= 2;
      NoTripleSlice(s, k, |s|);
      CollapseKeepsCleanText(s[k..]);
      assert s[..k] + s[k..] == s;
    }
  }

  /** Collapsing twice is collapsing once. */
  lemma CollapseIdempotent(s: string)
    ensures CollapseNewlines(CollapseNewlines(s)) == CollapseNewlines(s)
  {
    CollapseKeepsCleanText(CollapseNewlines(s));
  }

  /** The characters of `s` other than newlines, in order. */
  function WithoutNewlines(s: string): string
  {
    if |s| == 0 then "" else (if s[0] == '\n' then "" else [s[0]]) + WithoutNewlines(s[1..])
  }

  lemma {:induction false} WithoutNewlinesConcat(a: string, b: string)
    ensures WithoutNewlines(a + b) == WithoutNewlines(a) + WithoutNewlines(b)
    decreases |a|
  {
    if |a| == 0 {
      assert a + b == b;
    } else {
      assert (a + b)[0] == a[0] && (a + b)[1..] == a[1..] + b;
      WithoutNewlinesConcat(a[1..], b);
    }
  }

  /** Collapsing only shortens newline runs: every other character stays, in order. */
  lemma {:induction false} CollapseKeepsText(s: string)
    ensures WithoutNewlines(CollapseNewlines(s)) == WithoutNewlines(s)
    decreases |s|
  {
    if |s| > 0 && s[0] == '\n' {
      var k := LeadingNewlines(s);
      CollapseKeepsText(s[k..]);
      CollapseRunKeepsText(s, k);
    } else if |s| > 0 {
      CollapseKeepsText(s[1..]);
      assert CollapseNewlines(s) == [s[0]] + CollapseNewlines(s[1..]);
      WithoutNewlinesConcat([s[0]], CollapseNewlines(s[1..]));
    }
  }

  /** The step of `CollapseKeepsText` for a text starting with a run of `k` newlines. */
  lemma CollapseRunKeepsText(s: string, k: nat)
    requires |s| > 0 && s[0] == '\n' && k == LeadingNewlines(s)
    requires WithoutNewlines(CollapseNewlines(s[k..])) == WithoutNewlines(s[k..])
    ensures WithoutNewlines(CollapseNewlines(s)) == WithoutNewlines(s)
  {
    var run := if k >= 3 then "\n\n" else s[..k];
    var rest := CollapseNewlines(s[k..]);
    assert CollapseNewlines(s) == run + rest;
    assert forall i :: 0 <= i < |run| ==> run[i] == '\n';
    SkipNewlines(run, |run|);
    assert run[|run|..] == [];
    WithoutNewlinesConcat(run, rest);
    SkipNewlines(s, k);
  }

  /** Newlines at the front do not change `WithoutNewlines`. */
  lemma {:induction false} SkipNewlines(s: string, k: nat)
    requires k <= |s| && forall i :: 0 <= i < k ==> s[i] == '\n'
    ensures WithoutNewlines(s) == WithoutNewlines(s[k..])
    decreases k
  {
    if k > 0 {
      SkipNewlines(s[1..], k - 1);
      assert s[1..][k - 1..] == s[k..];
    }
  }

  /** Each line with a right-to-left mark in front. */
  function MarkLines(lines: seq<string>): (marked: seq<string>)
    ensures |marked| == |lines|
    ensures forall i :: 0 <= i < |lines| ==> marked[i] == [RLM] + lines[i]
  {
    seq(|lines|, i requires 0 <= i < |lines| => [RLM] + lines[i])
  }

  /** `'\n'.join(f"‏{line}" for line in s.split('\n'))`. */
  function ForceRtlLines(s: string): string
  {
    Join(MarkLines(Split(s, '\n')), '\n')
  }

  /** The tail of `convert_md_to_html` applied to the rendered HTML `html`. */
  function FinishHtml(html: string, userLang: string): string
  {
    var text := Strip(CollapseNewlines(html));
    if userLang == "fa" then ForceRtlLines(text) else text
  }

  lemma NoTripleSlice(s: string, a: nat, b: nat)
    requires NoTripleNewline(s) && a <= b <= |s|
    ensures NoTripleNewline(s[a..b])
  {
    var t := s[a..b];
    forall i | 0 <= i && i + 2 < |t| ensures !(t[i] == '\n' && t[i + 1] == '\n' && t[i + 2] == '\n') {
      assert t[i] == s[a + i] && t[i + 1] == s[a + i + 1] && t[i + 2] == s[a + i + 2];
    }
  }

  /** For every language but Persian the result is stripped and has no run of three newlines. */
  lemma FinishHtmlPlain(html: string, userLang: string)
    requires userLang != "fa"
    ensures FinishHtml(html, userLang) == Strip(CollapseNewlines(html))
    ensures var r := FinishHtml(html, userLang);
            NoTripleNewline(r) && (|r| > 0 ==> !IsSpace(r[0]) && !IsSpace(r[|r| - 1]))
  {
    StrippedHasNoTriple(html);
    StripTrims(CollapseNewlines(html));
  }

  /** Stripping the collapsed text cannot create a run of three newlines. */
  lemma StrippedHasNoTriple(html: string)
    ensures NoTripleNewline(Strip(CollapseNewlines(html)))
  {
    var collapsed := CollapseNewlines(html);
    NoTripleSlice(collapsed, StripStart(collapsed), StripEnd(collapsed));
  }

  /** For Persian, the result has exactly the lines of the stripped, collapsed text, each one
      preceded by a right-to-left mark, and the collapsed text itself has no run of three newlines. */
  lemma FinishHtmlPersian(html: string)
    ensures var text := Strip(CollapseNewlines(html));
            var lines := Split(text, '\n');
            var out := Split(FinishHtml(html, "fa"), '\n');
            && NoTripleNewline(text)
            && Join(lines, '\n') == text
            && |out| == |lines|
            && forall i :: 0 <= i < |out| ==> out[i] == [RLM] + lines[i]
  {
    var collapsed := CollapseNewlines(html);
    var text := Strip(collapsed);
    StrippedHasNoTriple(html);
    var lines := Split(text, '\n');
    JoinSplit(text, '\n');
    var marked := MarkLines(lines);
    forall i | 0 <= i < |marked| ensures '\n' !in marked[i] {
      assert marked[i] == [RLM] + lines[i];
    }
    SplitJoin(marked, '\n');
  }
}
