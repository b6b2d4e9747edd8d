/** What the polling client makes of a raw reply, said of the reply's own entries: which reply ends a
    wait, and where the error of a failed command is taken from. */
module QueueDocuments {
  import opened Wrappers
  import opened JsonValues
  import opened QueueWait
  import opened QueueProperties
  import opened TextProperties
  import Text

  // ---------------------------------------------------------------- the words of a status

  /** `m` is the word in small letters or capitals. */
  predicate Spells(m: string, word: string) {
    && |m| == |word|
    && forall i :: 0 <= i < |m| ==>
         m[i] == word[i] || exists k :: 0 <= k < 26 && m[i] == UPPER[k] && word[i] == LOWER[k]
  }

  /** The document's status is this word, up to blanks around it and capitals. */
  ghost predicate Says(d: seq<Field>, word: string) {
    Get(d, "status").String? && exists m :: Trimmed(Get(d, "status").text, m) && Spells(m, word)
  }

  /** A word of small letters. */
  predicate SmallLetters(word: string) {
    word != "" && forall i :: 0 <= i < |word| ==> word[i] in LOWER
  }

  lemma SpellsIsLower(m: string, word: string)
    requires SmallLetters(word)
    ensures Spells(m, word) <==> Text.Lower(m) == word
  {
    Alphabet();
    if |m| == |word| {
      forall i | 0 <= i < |m|
        ensures (m[i] == word[i] || exists k :: 0 <= k < 26 && m[i] == UPPER[k] && word[i] == LOWER[k])
           <==> Text.Lower(m)[i] == word[i]
      {
        LowerByLetter(m, i);
        assert word[i] in LOWER;
        if m[i] in UPPER {
          var k :| 0 <= k < 26 && m[i] == UPPER[k];
          assert Text.Lower(m)[i] == LOWER[k];
        }
      }
    }
  }

  lemma SaysIsStatus(d: seq<Field>, word: string)
    requires SmallLetters(word)
    ensures Says(d, word) <==> Status(d) == PyText.Text(word)
  {
    if Get(d, "status").String? {
      var t := Get(d, "status").text;
      if !Has(d, "status") {
        GetAbsent(d, "status");
      }
      StripTrims(t);
      SpellsIsLower(Text.Strip(t), word);
      if m :| Trimmed(t, m) && Spells(m, word) {
        TrimmedOnce(t, m, Text.Strip(t));
      }
    }
  }

  lemma WordsAreSmall()
    ensures SmallLetters("completed") && SmallLetters("failed") && SmallLetters("stopped") && SmallLetters("cancelled")
  {
    Letters("completed");
    Letters("failed");
    Letters("stopped");
    Letters("cancelled");
  }

  lemma Letters(word: string)
    requires word != "" && forall i :: 0 <= i < |word| ==> 'a' <= word[i] <= 'z'
    ensures SmallLetters(word)
  {
    Alphabet();
    forall i | 0 <= i < |word|
      ensures word[i] in LOWER
    {
      assert LOWER[word[i] as int - 97] == word[i];
    }
  }

  /** The four statuses that end a job, and the three of them that say it failed. */
  ghost predicate SaysEnded(d: seq<Field>) {
    Says(d, "completed") || SaysFailed(d)
  }

  ghost predicate SaysFailed(d: seq<Field>) {
    Says(d, "failed") || Says(d, "stopped") || Says(d, "cancelled")
  }

  lemma SaysEndedIsTerminal(d: seq<Field>)
    ensures SaysEnded(d) <==> IsTerminal(d)
    ensures SaysFailed(d) || Truthy(Get(d, "error")) <==> JobFailure(d)
  {
    hide Says, Status, SmallLetters, Get;
    WordsAreSmall();
    SaysIsStatus(d, "completed");
    SaysIsStatus(d, "failed");
    SaysIsStatus(d, "stopped");
    SaysIsStatus(d, "cancelled");
  }

  // ---------------------------------------------------------------- the reply that ends a wait

  /** The dict of a reply that is looked at: the one under `data`, else the reply's own. */
  predicate Document(resp: Json, d: seq<Field>) {
    && resp.Object?
    && if Get(resp.fields, "data").Object? then Get(resp.fields, "data") == Object(d) else resp == Object(d)
  }

  ghost predicate Ends(resp: Json, d: seq<Field>) {
    Document(resp, d) && SaysEnded(d)
  }

  lemma EndsIsTerminal(resp: Json, d: seq<Field>)
    ensures Ends(resp, d) <==> d == StatusData(resp) && IsTerminal(d)
  {
    SaysEndedIsTerminal(d);
    hide SaysEnded;
    if !resp.Object? {
      NothingSaid();
    }
  }

  lemma NothingSaid()
    ensures !IsTerminal([])
  {
    SaysEndedIsTerminal([]);
  }

  /** The instants of the status reads of a wait that were answered, in order. */
  ghost predicate ReadsAt(w: World, job: PyText, ats: seq<real>) {
    forall i :: 0 <= i < |ats| ==> w.status(job, ats[i]).Answer?
  }

  /** A wait asks for this job's status and nothing else, and what ends it is the first answered reply
      whose document says one of the four words: it ends with exactly that document, and no other
      reply ends it. */
  lemma {:induction false} TheFirstEndingReplyEnds(
      w: World, n: Net, job: PyText, start: real, o: Options, polls: nat) returns (ats: seq<real>)
    ensures var (m, r) := WaitRun(w, n, job, start, o, polls);
      && ReadsAt(w, job, ats)
      && (polls > 0 && w.status(job, ReadInstant(w, n)).Answer? ==> ats != [] && ats[0] == ReadInstant(w, n))
      && m.sent == n.sent + seq(|ats| + (if r == WaitBroken then 1 else 0), _ => GetStatus(job))
      && (r.Terminal? ==> ats != [] && Ends(w.status(job, ats[|ats| - 1]).value, r.data))
      && (forall i :: 0 <= i < |ats| && (r.Terminal? ==> i < |ats| - 1) ==>
            forall d :: !Ends(w.status(job, ats[i]).value, d))
      && (r == WaitUnfinished ==> |ats| == polls)
    decreases polls
  {
    hide Ends, IsTerminal, StatusData;
    ats := [];
    if polls > 0 {
      var m, at := Polled(w, n, job), ReadInstant(w, n);
      match w.status(job, at) {
        case Fault =>
          assert m.sent == n.sent + seq(1, _ => GetStatus(job));
        case Answer(v) =>
          ats := [at];
          forall d
            ensures Ends(v, d) <==> d == StatusData(v) && IsTerminal(d)
          {
            EndsIsTerminal(v, d);
          }
          if IsTerminal(StatusData(v)) || (o.timeout.Some? && m.clock - start >= o.timeout.value) {
            assert m.sent == n.sent + seq(1, _ => GetStatus(job));
          } else {
            var rest := TheFirstEndingReplyEnds(w, Slept(w, m, o.pollInterval), job, start, o, polls - 1);
            ats := [at] + rest;
            assert forall i :: 0 < i < |ats| ==> ats[i] == rest[i - 1];
            AskedOnceMore(n.sent, GetStatus(job), |ats| - 1 + (if WaitRun(w, n, job, start, o, polls).1 == WaitBroken
              then 1 else 0));
          }
      }
    } else {
      assert n.sent + seq(0, _ => GetStatus(job)) == n.sent;
    }
  }

  lemma AskedOnceMore(sent: seq<Request>, r: Request, k: nat)
    ensures sent + [r] + seq(k, _ => r) == sent + seq(k + 1, _ => r)
  {
  }

  // ---------------------------------------------------------------- the error that is raised

  /** The command's own result, a dict within the queue's `result` dict, carries this error. */
  predicate InnerCarries(d: seq<Field>, e: Json) {
    && Get(d, "result").Object? && Get(Get(d, "result").fields, "result").Object?
    && Get(Get(Get(d, "result").fields, "result").fields, "error") == e
  }

  /** The error stands beside it, in the queue's `result` dict. */
  predicate OuterCarries(d: seq<Field>, e: Json) {
    Get(d, "result").Object? && Get(Get(d, "result").fields, "error") == e
  }

  /** The failed command's own error: the inner one where there is one, else the outer one. */
  ghost predicate OwnError(d: seq<Field>, e: Json) {
    e != Null && (InnerCarries(d, e) || (OuterCarries(d, e) && forall x :: x != Null ==> !InnerCarries(d, x)))
  }

  lemma OwnErrorIsInnerError(d: seq<Field>, e: Json)
    ensures OwnError(d, e) <==> e != Null && e == InnerError(d)
  {
    hide Get;
    var result := Get(d, "result");
    if result.Object? && Get(result.fields, "result").Object? {
      assert InnerCarries(d, Get(Get(result.fields, "result").fields, "error"));
    }
  }

  /** The job itself counts as failed. */
  ghost predicate Failed(d: seq<Field>) {
    SaysFailed(d) || Truthy(Get(d, "error"))
  }

  /** A failed job whose document carries the command's own error raises that error, the inner one
      before the outer one, and asks for nothing more. */
  lemma OwnErrorIsRaisedAtOnce(w: World, n: Net, d: seq<Field>, e: Json, refetch: bool)
    requires Failed(d) && OwnError(d, e)
    ensures UnwrapRun(w, n, d, refetch) == (n, JobFailed(Get(d, "job_id"), e, Status(d)))
  {
    SaysEndedIsTerminal(d);
    OwnErrorIsInnerError(d, e);
    hide SaysFailed, OwnError, InnerError, JobFailure, Status, Get;
  }

  /** A reply in whose document the command's own error can be read. */
  ghost predicate Shows(resp: Json, e: Json) {
    exists d :: Document(resp, d) && OwnError(d, e)
  }

  lemma ShowsIsInnerError(resp: Json, e: Json)
    ensures Shows(resp, e) <==> e != Null && e == InnerError(StatusData(resp))
  {
    if resp.Object? {
      var d := StatusData(resp);
      assert Document(resp, d);
      OwnErrorIsInnerError(d, e);
      assert forall x :: Document(resp, x) ==> x == d;
    } else {
      assert Get([], "result") == Null;
    }
  }

  /** Rereading stops at the first reply that shows the command's own error, after at most the given
      number of reads, each half a second of sleep after the one before. */
  lemma {:induction false} RereadsUntilShown(w: World, n: Net, job: PyText, attempts: nat) returns (ats: seq<real>)
    ensures var (m, r) := RefetchRun(w, n, job, attempts);
      && ReadsAt(w, job, ats) && |ats| <= attempts
      && (attempts > 0 && ats != [] ==> ats[0] == ReadInstant(w, Slept(w, n, 0.5)))
      && m.sent == n.sent + seq(|ats| + (if r == RefetchBroken then 1 else 0), _ => GetStatus(job))
      && (r.Found? ==> ats != [] && Shows(w.status(job, ats[|ats| - 1]).value, r.error))
      && (forall i, e :: 0 <= i < |ats| && (r.Found? ==> i < |ats| - 1) ==> !Shows(w.status(job, ats[i]).value, e))
      && (r == Nothing ==> |ats| == attempts)
    decreases attempts
  {
    hide Shows, InnerError, StatusData;
    ats := [];
    if attempts > 0 {
      var awake := Slept(w, n, 0.5);
      var m, at := Polled(w, awake, job), ReadInstant(w, awake);
      match w.status(job, at) {
        case Fault =>
          assert m.sent == n.sent + seq(1, _ => GetStatus(job));
        case Answer(v) =>
          ats := [at];
          forall e
            ensures Shows(v, e) <==> e != Null && e == InnerError(StatusData(v))
          {
            ShowsIsInnerError(v, e);
          }
          if InnerError(StatusData(v)) != Null {
            assert m.sent == n.sent + seq(1, _ => GetStatus(job));
          } else {
            var rest := RereadsUntilShown(w, m, job, attempts - 1);
            ats := [at] + rest;
            assert forall i :: 0 < i < |ats| ==> ats[i] == rest[i - 1];
            var k := |rest| + if RefetchRun(w, n, job, attempts).1 == RefetchBroken then 1 else 0;
            AskedOnceMore(n.sent, GetStatus(job), k);
          }
      }
    } else {
      assert n.sent + seq(0, _ => GetStatus(job)) == n.sent;
    }
  }

  /** A failed job whose document carries no error of the command is asked about again, up to four times
      and only if the document names the job; the first reply that shows the command's own error
      decides, and where none does the queue's own error is raised. */
  lemma WithoutOwnErrorItRereads(w: World, n: Net, d: seq<Field>, refetch: bool) returns (ats: seq<real>)
    requires Failed(d) && forall e :: !OwnError(d, e)
    ensures var id, (m, r) := Get(d, "job_id"), UnwrapRun(w, n, d, refetch);
      && (!refetch || !Truthy(id) ==> ats == [] && m == n && r == JobFailed(id, Get(d, "error"), Status(d)))
      && (refetch && Truthy(id) ==>
            && ReadsAt(w, Str(id), ats)
            && m.sent == n.sent + seq(|ats| + (if r == Broken then 1 else 0), _ => GetStatus(Str(id)))
            && (ats != [] ==> ats[0] == ReadInstant(w, Slept(w, n, 0.5)))
            && (r != Broken ==> 1 <= |ats| <= 4)
            && (forall i, e :: 0 <= i < |ats| - 1 ==> !Shows(w.status(Str(id), ats[i]).value, e))
            && (|| r == Broken
                || (exists e :: Shows(w.status(Str(id), ats[|ats| - 1]).value, e) && r == JobFailed(id, e, Status(d)))
                || (&& |ats| == 4 && (forall e :: !Shows(w.status(Str(id), ats[3]).value, e))
                    && r == JobFailed(id, Get(d, "error"), Status(d)))))
  {
    SaysEndedIsTerminal(d);
    OwnErrorIsInnerError(d, InnerError(d));
    hide SaysFailed, OwnError, InnerError, JobFailure, Status, Get, Shows, RefetchRun;
    ats := [];
    var id := Get(d, "job_id");
    if refetch && Truthy(id) {
      ats := RereadsUntilShown(w, n, Str(id), 4);
    }
  }

  // ---------------------------------------------------------------- the race, on raw replies

  /** What the theorems about the race assume of a world, said of its raw replies: every answered one
      shows the command's own error from `at` on, and none before. */
  lemma LandsOnReplies(w: World, job: PyText, error: Json, at: real)
    ensures Lands(w, job, error, at) <==>
              && error != Null
              && forall t: real, e :: w.status(job, t).Answer? ==>
                   (Shows(w.status(job, t).value, e) <==> t >= at && e == error)
  {
    hide Shows, InnerError, StatusData;
    forall t: real, e | w.status(job, t).Answer?
      ensures Shows(w.status(job, t).value, e) <==> e != Null && e == ErrorAt(w, job, t)
    {
      ShowsIsInnerError(w.status(job, t).value, e);
    }
    if error != Null && forall t: real, e :: w.status(job, t).Answer? ==>
      (Shows(w.status(job, t).value, e) <==> t >= at && e == error) {
      forall t: real | w.status(job, t).Answer?
        ensures ErrorAt(w, job, t) == if t >= at then error else Null
      {
        var v := w.status(job, t).value;
        assert Shows(v, error) <==> t >= at;
        assert Shows(v, ErrorAt(w, job, t)) <==> ErrorAt(w, job, t) != Null;
      }
    }
  }

  /** The same of a failing job: whatever ends a wait for it says that it failed, and names it. */
  ghost predicate RepliesFail(w: World, job: PyText) {
    forall t: real, d :: w.status(job, t).Answer? && Ends(w.status(job, t).value, d) ==>
      Failed(d) && Truthy(Get(d, "job_id")) && Str(Get(d, "job_id")) == job
  }

  lemma FailsAsOnReplies(w: World, job: PyText)
    ensures FailsAs(w, job) <==> RepliesFail(w, job)
  {
    hide Ends, Failed, IsTerminal, JobFailure, StatusData, Get, Truthy;
    if FailsAs(w, job) {
      forall t: real, d | w.status(job, t).Answer? && Ends(w.status(job, t).value, d)
        ensures Failed(d) && Truthy(Get(d, "job_id")) && Str(Get(d, "job_id")) == job
      {
        EndsIsTerminal(w.status(job, t).value, d);
        FailedIsJobFailure(d);
      }
    }
    if RepliesFail(w, job) {
      forall t: real | w.status(job, t).Answer?
        ensures var d := StatusData(w.status(job, t).value);
          IsTerminal(d) ==> JobFailure(d) && Truthy(Get(d, "job_id")) && Str(Get(d, "job_id")) == job
      {
        var v := w.status(job, t).value;
        EndsIsTerminal(v, StatusData(v));
        FailedIsJobFailure(StatusData(v));
      }
    }
  }

  lemma FailedIsJobFailure(d: seq<Field>)
    ensures Failed(d) <==> JobFailure(d)
  {
    SaysEndedIsTerminal(d);
  }

  /** From end to end, in literal replies: a command that is queued by the marker, and a queue that
      writes the status "failed" first and the command's own error up to two seconds later. The call
      raises that error, unless its timeout is over or it is cut off while the job still runs. */
  lemma TheRaceIsRiddenOut(w: World, n: Net, command: string, job: string, queueError: Json, error: Json,
      statusAt: real, landed: real, wording: Wording, o: Options, polls: nat)
    requires job != "" && error != Null && landed <= statusAt + 2.0
    requires w.submit(command)
      == Answer(Object([Field("job_id", String(job)), Field("poll_with", String("queue_get_job_status"))]))
    requires ServesTwoWrites(w, job, queueError, error, statusAt, landed, wording)
    ensures var r := ExecuteRun(w, n, command, true, o, polls).1;
      || r == JobFailed(String(job), error, PyText.Text("failed"))
      || (r.TimedOut? && o.timeout == Some(r.timeout))
      || r == Unfinished
  {
    QueuedByMarker(job);
    AQueueInTwoWrites(w, job, queueError, error, statusAt, landed, wording);
    var start := Sent(w, n, Submit(command));
    var id := PyText.Text(job);
    forall t: real
      ensures w.status(id, t).Answer?
      ensures var d := StatusData(w.status(id, t).value);
        && (t < statusAt ==> !IsTerminal(d))
        && (IsTerminal(d) ==> Get(d, "job_id") == String(job) && Status(d) == PyText.Text("failed"))
    {
      hide TwoWrites, Worded, StatusData, Get, Status;
      TwoWritesRead(job, queueError, error, statusAt, landed, wording, t);
      Words();
    }
    PromptResultIsAlwaysInTime(w, n, command, id, error, statusAt, landed, o, polls);
    RaceRecovered(w, n, command, id, error, landed, o, polls);
    WaitOnStore(w, start, id, statusAt, o, polls);
    var wait := WaitRun(w, start, id, start.clock, o, polls).1;
    var read := TerminalRead(w, start, id, o, polls);
    var _ := WaitEnds(w, start, id, start.clock, o, polls);
    hide WaitRun, UnwrapRun, Lands, FailsAs, IsTerminal, StatusData, Status, Get, IsQueuedEnvelope, ExtractJobId;
    hide ServesTwoWrites;
    assert wait.Terminal? ==> Get(wait.data, "job_id") == String(job) && Status(wait.data) == PyText.Text("failed");
  }

  lemma QueuedByMarker(job: string)
    requires job != ""
    ensures var resp := Object([Field("job_id", String(job)), Field("poll_with", String("queue_get_job_status"))]);
      IsQueuedEnvelope(resp) == Queued && ExtractJobId(resp.fields) == PyText.Text(job)
  {
    var f := [Field("job_id", String(job)), Field("poll_with", String("queue_get_job_status"))];
    assert f[1..] == [Field("poll_with", String("queue_get_job_status"))];
    assert Get(f, "poll_with") == Get(f[1..], "poll_with") == String("queue_get_job_status");
    assert Get(f, "job_id") == String(job);
  }

  // ---------------------------------------------------------------- which job, and how a call ends

  /** Which of the places of a response holds its job id: the first with a value that counts as true. */
  predicate JobIdAt(fields: seq<Field>, i: nat) {
    && i < |JobIdPlaces(fields)| && Truthy(JobIdPlaces(fields)[i])
    && forall j :: 0 <= j < i ==> !Truthy(JobIdPlaces(fields)[j])
  }

  /** A call raises TypeError, returns the response itself, or goes on with its job, whose id is the text
      of that value; a caller who opts out of polling gets the handle after one request, and whoever
      does not gets a timeout of that job or what the job came to. */
  lemma HowACallGoesOn(w: World, n: Net, command: string, o: Options, polls: nat, i: nat)
    requires w.submit(command).Answer?
    ensures var resp := w.submit(command).value;
      var (m, r) := ExecuteRun(w, n, command, true, o, polls);
      var (m0, r0) := ExecuteRun(w, n, command, false, o, polls);
      && m0.sent == n.sent + [Submit(command)]
      && (r0 == TypeErr <==> StatusBreaksLookup(resp)) && (r == TypeErr <==> r0 == TypeErr)
      && (r0.Handle? <==> DocumentedQueued(resp) && !StatusBreaksLookup(resp))
      && (r0 != TypeErr && !r0.Handle? ==> r0 == r == Returned(resp) && m == m0)
      && (r0.Handle? && JobIdAt(resp.fields, i) ==>
            var given := JobIdPlaces(resp.fields)[i];
            && r0 == Handle(if given.String? then PyText.Text(given.text) else Rendered(given), resp)
            && m0.sent <= m.sent
            && (m.sent != m0.sent ==> m.sent[|m0.sent|] == GetStatus(r0.job))
            && (r.TimedOut? ==> r == TimedOut(r0.job, r.timeout) && o.timeout == Some(r.timeout)))
  {
    var resp := w.submit(command).value;
    DetectionMatchesDocumentedRule(resp);
    hide IsQueuedEnvelope, DocumentedQueued, StatusBreaksLookup, Get;
    if IsQueuedEnvelope(resp) == Queued {
      var m := Sent(w, n, Submit(command));
      var job := ExtractJobId(resp.fields);
      GoesOnAsking(w, m, job, o, polls);
      assert resp.Object? by {
        QueuedIsADict(resp);
      }
      JobIdIsTheFirstGiven(resp.fields);
    }
  }

  lemma QueuedIsADict(resp: Json)
    ensures IsQueuedEnvelope(resp) == Queued ==> resp.Object?
  {
  }

  lemma GoesOnAsking(w: World, n: Net, job: PyText, o: Options, polls: nat)
    ensures var (m, r) := JoinRun(w, n, job, o, polls);
      && n.sent <= m.sent && (m.sent != n.sent ==> m.sent[|n.sent|] == GetStatus(job))
      && (r.TimedOut? ==> r == TimedOut(job, r.timeout) && o.timeout == Some(r.timeout))
      && r != TypeErr && !r.Handle?
  {
    var ats := TheFirstEndingReplyEnds(w, n, job, n.clock, o, polls);
    var _ := WaitEnds(w, n, job, n.clock, o, polls);
    var (m, wait) := WaitRun(w, n, job, n.clock, o, polls);
    hide WaitRun, Ends;
    if wait.Terminal? {
      UnwrapGoesOn(w, m, wait.data);
    }
  }

  lemma UnwrapGoesOn(w: World, n: Net, d: seq<Field>)
    ensures var (m, r) := UnwrapRun(w, n, d, true);
      n.sent <= m.sent && r != TypeErr && !r.Handle? && !r.TimedOut?
  {
    hide InnerError, JobFailure, CommandFailure, Get, Status;
    if Truthy(Get(d, "job_id")) {
      var ats := RereadsUntilShown(w, n, Str(Get(d, "job_id")), REFETCH_ATTEMPTS);
    }
  }
}
