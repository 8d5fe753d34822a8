/** Posting the messages to the chat webhook (src/index.js:33-46 and the
    chunk loops at src/index.js:116-123 and src/index.js:174-181). The
    webhook is replaced by `webhook`, whose value at k is the response to
    the k-th POST of the run. */
module Notify {

  import opened Wrappers
  import opened Chunking

  /** The webhook's answer to one POST: whether the status is 2xx, its
      status text and its body. */
  datatype WebhookResponse = WebhookResponse(ok: bool, statusText: string, body: string)

  /** `sendToCliq`: nothing on a 2xx response; otherwise the message of the
      error it throws, which names the status text and the body. */
  function SendToCliq(response: WebhookResponse): (error: Option<string>)
    ensures error.None? <==> response.ok
    ensures error.Some? ==>
      error.value == "Failed to send message to Cliq: " + response.statusText + "; " + response.body
  {
    if response.ok then None
    else Some("Failed to send message to Cliq: " + response.statusText + "; " + response.body)
  }

  /** The first of the sends 0 .. count-1 that gets a non-ok response, if any. */
  function FirstFailure(count: nat, webhook: nat -> WebhookResponse): (j: Option<nat>)
    ensures j.None? ==> forall k :: 0 <= k < count ==> webhook(k).ok
    ensures j.Some? ==> j.value < count && !webhook(j.value).ok
                        && forall k :: 0 <= k < j.value ==> webhook(k).ok
  {
    if count == 0 then None
    else match FirstFailure(count - 1, webhook)
      case Some(j) => Some(j)
      case None => if webhook(count - 1).ok then None else Some(count - 1)
  }

  /** What a run of the chunk loop does with the list `ids`: the texts it
      posts, in order, and the error that ends it, if any. Every message is
      posted up to and including the first one the webhook rejects. */
  function Notification(ids: seq<string>, heading: string, webhook: nat -> WebhookResponse)
    : (result: (seq<string>, Option<string>))
    ensures |result.0| <= |Messages(ids, heading)|
    ensures result.1.None? ==> |result.0| == |Messages(ids, heading)|
    ensures result.1.Some? ==> 0 < |result.0| && !webhook(|result.0| - 1).ok
  {
    var ms := Messages(ids, heading);
    match FirstFailure(|ms|, webhook)
    case None => (Texts(ms), None)
    case Some(j) => (Texts(ms[..j + 1]), SendToCliq(webhook(j)))
  }

  /** The text of each message, in order. */
  function Texts(ms: seq<Message>): (texts: seq<string>)
  {
    seq(|ms|, k requires 0 <= k < |ms| => Text(ms[k]))
  }

  lemma TextsSnoc(ms: seq<Message>, k: nat)
    requires k < |ms|
    ensures Texts(ms[..k + 1]) == Texts(ms[..k]) + [Text(ms[k])]
  {
  }

  /** The chunk loop: slice ten numbers at a time, format the message, post
      it, and stop at the first failed post, whose error ends the run. */
  method NotifyAll(ids: seq<string>, heading: string, webhook: nat -> WebhookResponse)
    returns (posted: seq<string>, error: Option<string>)
    ensures (posted, error) == Notification(ids, heading, webhook)
  {
    ghost var ms := Messages(ids, heading);
    posted := [];
    error := None;
    var i := 0;
    ChunkStartInside(|ids|, 0);
    while i < |ids|
      invariant i == ChunkSize * |posted|
      invariant i < |ids| <==> |posted| < |ms|
      invariant |posted| <= |ms|
      invariant posted == Texts(ms[..|posted|])
      invariant forall k :: 0 <= k < |posted| ==> webhook(k).ok
      invariant error == None
    {
      var k := |posted|;
      var chunk := ids[i .. Min(i + ChunkSize, |ids|)];
      var message := Message(heading, i + 1, i + |chunk|, |ids|, chunk);
      NextMessage(ids, heading, posted, i, message);
      var messageText := Text(message);
      posted := posted + [messageText];
      error := SendToCliq(webhook(k));
      if error.Some? {
        StoppedAtFailure(ids, heading, webhook, posted);
        return;
      }
      i := i + ChunkSize;
    }
    CompletedWithoutFailure(ids, heading, webhook, posted);
  }

  /** The loop's next message is the next one of `Messages`, and the next
      slice start is inside the list exactly when a message is left. */
  lemma NextMessage(ids: seq<string>, heading: string, posted: seq<string>, i: nat, message: Message)
    requires i == ChunkSize * |posted| < |ids|
    requires posted == Texts(Messages(ids, heading)[..|posted|])
    requires var chunk := ids[i .. Min(i + ChunkSize, |ids|)];
      message == Message(heading, i + 1, i + |chunk|, |ids|, chunk)
    ensures |posted| < |Messages(ids, heading)|
    ensures posted + [Text(message)] == Texts(Messages(ids, heading)[..|posted| + 1])
    ensures i + ChunkSize < |ids| <==> |posted| + 1 < |Messages(ids, heading)|
  {
    var k := |posted|;
    MessagesCount(ids, heading);
    ChunkStartInside(|ids|, k);
    ChunkStartInside(|ids|, k + 1);
    MessageAt(ids, heading, k);
    NextText(ids, heading, posted, message);
  }

  lemma NextText(ids: seq<string>, heading: string, posted: seq<string>, message: Message)
    requires |posted| < |Messages(ids, heading)|
    requires posted == Texts(Messages(ids, heading)[..|posted|])
    requires message == Messages(ids, heading)[|posted|]
    ensures posted + [Text(message)] == Texts(Messages(ids, heading)[..|posted| + 1])
  {
    TextsSnoc(Messages(ids, heading), |posted|);
  }

  lemma StoppedAtFailure(ids: seq<string>, heading: string, webhook: nat -> WebhookResponse, posted: seq<string>)
    requires 0 < |posted| <= |Messages(ids, heading)|
    requires posted == Texts(Messages(ids, heading)[..|posted|])
    requires forall k :: 0 <= k < |posted| - 1 ==> webhook(k).ok
    requires !webhook(|posted| - 1).ok
    ensures Notification(ids, heading, webhook) == (posted, SendToCliq(webhook(|posted| - 1)))
  {
    var ms := Messages(ids, heading);
    assert FirstFailure(|ms|, webhook) == Some(|posted| - 1);
  }

  lemma CompletedWithoutFailure(ids: seq<string>, heading: string, webhook: nat -> WebhookResponse, posted: seq<string>)
    requires |posted| == |Messages(ids, heading)|
    requires posted == Texts(Messages(ids, heading)[..|posted|])
    requires forall k :: 0 <= k < |posted| ==> webhook(k).ok
    ensures Notification(ids, heading, webhook) == (posted, None)
  {
    var ms := Messages(ids, heading);
    assert FirstFailure(|ms|, webhook) == None;
    assert ms[..|posted|] == ms;
  }

  /** An empty list of order numbers posts nothing. */
  lemma NothingToReport(heading: string, webhook: nat -> WebhookResponse)
    ensures Notification([], heading, webhook) == ([], None)
  {
    MessagesCover([], heading);
    assert |Notification([], heading, webhook).0| == 0;
  }

  /** When the j-th post fails (after j successful ones), exactly j + 1
      posts were made, the last one being the j-th message, and the run
      ends with that post's error. */
  lemma FailedPostStops(ids: seq<string>, heading: string, webhook: nat -> WebhookResponse, j: nat)
    requires j < |Messages(ids, heading)|
    requires forall k :: 0 <= k < j ==> webhook(k).ok
    requires !webhook(j).ok
    ensures var (posted, error) := Notification(ids, heading, webhook);
      && |posted| == j + 1
      && posted[j] == Text(Messages(ids, heading)[j])
      && error == SendToCliq(webhook(j))
      && error.Some?
  {
    var ms := Messages(ids, heading);
    assert FirstFailure(|ms|, webhook) == Some(j);
  }

  /** When every post succeeds, every message is posted in order and the run
      ends without error. */
  lemma AllPostsSucceed(ids: seq<string>, heading: string, webhook: nat -> WebhookResponse)
    requires forall k :: 0 <= k < |Messages(ids, heading)| ==> webhook(k).ok
    ensures var (posted, error) := Notification(ids, heading, webhook);
      var ms := Messages(ids, heading);
      && error == None
      && |posted| == |ms|
      && forall k :: 0 <= k < |ms| ==> posted[k] == Text(ms[k])
  {
  }
}
