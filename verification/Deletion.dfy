/** Deleting a machine: when the finalizer goes, and how cloud errors are told apart. */
module Deletion {
  import opened Base
  import opened Machine

  /** What GetServer makes of an answer. */
  datatype Answer = Is(status: Status) | Absent | Denied | Broken

  /** GetServer on an error: `code` is the HTTP status if there was a response, `message` the SDK's
      error text. */
  function Classify(code: Option<nat>, message: string): Answer {
    if code == Some(404) then Absent
    else if code == Some(403) then Denied
    else if Contains(message, "404") || Contains(message, "not found") then Absent
    else if Contains(message, "403") || Contains(message, "permission") then Denied
    else Broken
  }

  /** A refusal that counts as success. */
  predicate Benign(message: string) {
    || Contains(message, "in state 'deleting'") || Contains(message, "in state 'stopping'")
    || Contains(message, "not found") || Contains(message, "404")
  }

  /** The text search is not the test it stands for: a server error about a server whose UUID
      contains 404 reads as "not found", both on a GET and on a delete. */
  lemma UUIDReadAsNotFound(before: string, uuid: Id, after: string)
    requires Contains(uuid, "404")
    ensures Classify(Some(500), before + uuid + after) == Absent
    ensures Benign(before + uuid + after)
  {
    ContainsInside(before, uuid, after, "404");
  }

  /** The texts that read as "gone", and those that read as "denied". */
  predicate SaysGone(message: string) {
    Contains(message, "404") || Contains(message, "not found")
  }

  predicate SaysDenied(message: string) {
    Contains(message, "403") || Contains(message, "permission")
  }

  /** The exact condition: the text search agrees with the HTTP status if and only if the status is one
      of the two itself or none of the four texts occurs. */
  lemma ClassifyIff(code: Option<nat>, message: string)
    ensures ((Classify(code, message).Absent? <==> code == Some(404)) && (Classify(code, message).Denied? <==> code == Some(403)))
            <==> (code in {Some(404), Some(403)} || !(SaysGone(message) || SaysDenied(message)))
  {
  }

  const MAX_POLLS := 12

  /** How DeleteServer ends. `Skipped`: its own GET read the server as gone, so it deletes nothing and
      reports success. */
  datatype Outcome = Deleted | Skipped | Refused(message: string)

  /** The cloud's answers to one deletion: the first GET, the stop, the polls, the delete and the write
      that drops the finalizer. */
  datatype Answers = Answers(first: Answer, stop: bool, polls: seq<Answer>, deletion: Outcome, update: bool)

  /** A poll that ends the wait: anything but a server that has not stopped yet. */
  predicate EndsWait(poll: Answer) {
    !(poll.Is? && !poll.status.Stopped?)
  }

  /** The number of polls that keep waiting, from `i` on. */
  function WaitLength(polls: seq<Answer>, i: nat): (k: nat)
    requires i <= MAX_POLLS == |polls|
    ensures i <= k <= MAX_POLLS && (forall j :: i <= j < k ==> !EndsWait(polls[j]))
    ensures k < MAX_POLLS ==> EndsWait(polls[k])
    decreases MAX_POLLS - i
  {
    if i < MAX_POLLS && !EndsWait(polls[i]) then WaitLength(polls, i + 1) else i
  }

  /** Delete is attempted: the server was seen stopped, or twelve polls saw it alive and not stopped. */
  predicate Attempts(a: Answers)
    requires |a.polls| == MAX_POLLS
  {
    var k := WaitLength(a.polls, 0);
    a.first.Is? && (a.first.status in {Running, Starting} ==> a.stop) && (k == MAX_POLLS || a.polls[k] == Is(Stopped))
  }

  /** The finalizer may go: nothing to delete, a server of another user, a server seen gone, a delete
      that was accepted, or one refused with a benign text. */
  predicate Releases(instanceID: Id, a: Answers)
    requires |a.polls| == MAX_POLLS
  {
    var k := WaitLength(a.polls, 0);
    || instanceID == ""
    || a.first.Denied?
    || a.first.Absent?
    || (a.first.Is? && (a.first.status in {Running, Starting} ==> a.stop) && k < MAX_POLLS && a.polls[k].Absent?)
    || (Attempts(a) && (a.deletion.Refused? ==> Benign(a.deletion.message)))
  }

  // ----- When the finalizer goes while the server is still there -----

  /** The end of a GET, as the API sends it. */
  datatype Reply = Alive(status: Status) | Failed(code: Option<nat>, message: string)

  function ReadReply(reply: Reply): Answer {
    match reply
    case Alive(status) => Is(status)
    case Failed(code, message) => Classify(code, message)
  }

  function ReadAll(polls: seq<Reply>): (answers: seq<Answer>)
    ensures |answers| == |polls| && forall i :: 0 <= i < |polls| ==> answers[i] == ReadReply(polls[i])
  {
    seq(|polls|, i requires 0 <= i < |polls| => ReadReply(polls[i]))
  }

  /** While the server is there, the API does not answer 404. */
  predicate StillThere(first: Reply, polls: seq<Reply>) {
    && !(first.Failed? && first.code == Some(404))
    && forall i :: 0 <= i < |polls| ==> !(polls[i].Failed? && polls[i].code == Some(404))
  }

  /** An error that is not a 403 and says "gone". */
  predicate WronglyGone(reply: Reply) {
    reply.Failed? && reply.code != Some(403) && SaysGone(reply.message)
  }

  /** The exact condition under which a deletion drops the finalizer of a server that is there all the
      time and is not deleted: the first GET is a 403 or says "gone" or "denied"; or, once the server
      was asked to stop, the poll that ends the wait says "gone"; or the delete is skipped because its
      own GET says "gone", or is refused with a text that counts as success. */
  lemma OrphansIff(instanceID: Id, first: Reply, stop: bool, polls: seq<Reply>, deletion: Outcome, update: bool)
    requires instanceID != "" && |polls| == MAX_POLLS && StillThere(first, polls)
    ensures var a := Answers(ReadReply(first), stop, ReadAll(polls), deletion, update);
            var k := WaitLength(a.polls, 0);
            (Releases(instanceID, a) && !(Attempts(a) && deletion.Deleted?)) <==>
              || (first.Failed? && (first.code == Some(403) || SaysGone(first.message) || SaysDenied(first.message)))
              || (first.Alive? && (first.status in {Running, Starting} ==> stop) && k < MAX_POLLS && WronglyGone(polls[k]))
              || (Attempts(a) && (deletion.Skipped? || (deletion.Refused? && Benign(deletion.message))))
  {
    var answers := ReadAll(polls);
    var k := WaitLength(answers, 0);
    if k < MAX_POLLS { assert answers[k] == ReadReply(polls[k]); }
  }

  /** A machine can always be deleted when the cloud cooperates: if it has no server; if its server answers
      404; or if its server, asked to stop if need be, is seen stopped and its deletion is accepted. */
  lemma CooperativeCloudReleases(instanceID: Id, first: Reply, stop: bool, polls: seq<Reply>, deletion: Outcome, update: bool, k: nat)
    requires |polls| == MAX_POLLS
    ensures var a := Answers(ReadReply(first), stop, ReadAll(polls), deletion, update);
            && (instanceID == "" ==> Releases(instanceID, a))
            && (first.Failed? && first.code == Some(404) ==> Releases(instanceID, a))
            && (first.Alive? && (first.status in {Running, Starting} ==> stop) && k < MAX_POLLS
                && (forall j :: 0 <= j < k ==> polls[j].Alive? && polls[j].status != Stopped) ==>
                  && (polls[k] == Alive(Stopped) ==> Attempts(a) && (deletion.Deleted? ==> Releases(instanceID, a)))
                  && (polls[k].Failed? && polls[k].code == Some(404) ==> Releases(instanceID, a)))
  {
    var answers := ReadAll(polls);
    if k < MAX_POLLS && (forall j :: 0 <= j < k ==> polls[j].Alive? && polls[j].status != Stopped) {
      forall j | 0 <= j < k ensures !EndsWait(answers[j]) { assert answers[j] == ReadReply(polls[j]); }
      assert answers[k] == ReadReply(polls[k]);
    }
  }

  /** And the finalizer stays when it does not: when the first GET cannot be read; when a running or
      starting server cannot be asked to stop; when the wait ends with a GET that is denied or cannot be
      read; when the delete is refused with a text that says none of: deleting, stopping, not found, 404. */
  lemma FailuresKeepFinalizer(instanceID: Id, a: Answers)
    requires instanceID != "" && |a.polls| == MAX_POLLS
    ensures a.first.Broken? ==> !Releases(instanceID, a) && !Attempts(a)
    ensures a.first.Is? && a.first.status in {Running, Starting} && !a.stop ==> !Releases(instanceID, a) && !Attempts(a)
    ensures var k := WaitLength(a.polls, 0);
            a.first.Is? && k < MAX_POLLS && (a.polls[k].Denied? || a.polls[k].Broken?) ==> !Releases(instanceID, a) && !Attempts(a)
    ensures Attempts(a) && a.deletion.Refused? ==>
              var text := a.deletion.message;
              (Releases(instanceID, a) <==>
                 Contains(text, "in state 'deleting'") || Contains(text, "in state 'stopping'")
                 || Contains(text, "not found") || Contains(text, "404"))
  {
  }

  /** A server that never stops is deleted all the same after twelve polls. */
  lemma StuckServerIsDeleted(instanceID: Id, status: Status, polls: seq<Reply>, update: bool)
    requires |polls| == MAX_POLLS && forall j :: 0 <= j < MAX_POLLS ==> polls[j].Alive? && polls[j].status != Stopped
    ensures MAX_POLLS == 12
    ensures var a := Answers(Is(status), true, ReadAll(polls), Deleted, update); Attempts(a) && Releases(instanceID, a)
  {
    var answers := ReadAll(polls);
    forall j | 0 <= j < MAX_POLLS ensures !EndsWait(answers[j]) { assert answers[j] == ReadReply(polls[j]); }
  }

  /** The polling loop: the answer it ends with, and how often it polled. */
  method WaitForStop(polls: seq<Answer>) returns (end: Answer, polled: nat)
    requires |polls| == MAX_POLLS
    ensures var k := WaitLength(polls, 0);
            && 0 < polled == (if k < MAX_POLLS then k + 1 else k) && end == polls[polled - 1]
  {
    end, polled := Broken, 0;
    while polled < MAX_POLLS
      invariant polled <= MAX_POLLS && WaitLength(polls, 0) == WaitLength(polls, polled)
      invariant 0 < polled ==> end == polls[polled - 1]
    {
      end := polls[polled];
      polled := polled + 1;
      match end {
        case Absent => return;
        case Is(now) => if now.Stopped? { return; }
        case _ => return;
      }
    }
  }

  /** reconcileDelete. `deletes` says whether the server was asked to be deleted, `polled` how often
      its state was read while waiting. */
  method ReconcileDelete(instanceID: Id, a: Answers) returns (dropped: bool, deletes: bool, polled: nat)
    requires |a.polls| == MAX_POLLS
    ensures dropped <==> Releases(instanceID, a) && a.update
    ensures deletes <==> instanceID != "" && Attempts(a)
    ensures polled <= MAX_POLLS
    ensures dropped && instanceID != "" && !deletes ==> a.first.Denied? || a.first.Absent? || (0 < polled && a.polls[polled - 1].Absent?)
    ensures deletes ==> (polled == MAX_POLLS && forall j :: 0 <= j < MAX_POLLS ==> a.polls[j].Is?)
                        || (0 < polled && a.polls[polled - 1] == Is(Stopped))
  {
    deletes, polled := false, 0;
    if instanceID == "" { return a.update, false, 0; }
    match a.first {
      case Denied => return a.update, false, 0;
      case Absent => return a.update, false, 0;
      case Broken => return false, false, 0;
      case Is(status) =>
        if status in {Running, Starting} && !a.stop { return false, false, 0; }
        var released;
        released, deletes, polled := WaitAndDelete(a);
        return released && a.update, deletes, polled;
    }
  }

  /** The part for a server that has been asked to stop if it was running. */
  method WaitAndDelete(a: Answers) returns (released: bool, deletes: bool, polled: nat)
    requires |a.polls| == MAX_POLLS
    ensures var k := WaitLength(a.polls, 0);
            && (deletes <==> k == MAX_POLLS || a.polls[k] == Is(Stopped))
            && (released <==> (k < MAX_POLLS && a.polls[k].Absent?) || (deletes && (a.deletion.Refused? ==> Benign(a.deletion.message))))
            && 0 < polled == (if k < MAX_POLLS then k + 1 else k)
  {
    var end;
    end, polled := WaitForStop(a.polls);
    match end {
      case Absent => return true, false, polled;
      case Denied => return false, false, polled;
      case Broken => return false, false, polled;
      case Is(_) => return !a.deletion.Refused? || Benign(a.deletion.message), true, polled;
    }
  }
}
