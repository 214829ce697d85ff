/** The two pieces of the chat server (main.go) that are logic rather than
    plumbing: listing the chats of a directory (`listJSONFiles`) and appending a
    posted message to a chat. The directory read is an input. */
module Server {
  import opened Strings

  /** `ChatMessage` (main.go:200-204). */
  datatype ChatMessage = ChatMessage(from: string, text: string, sentAt: string)

  /** One entry of a directory listing: its name and whether it is a directory. */
  datatype DirEntry = DirEntry(name: string, isDir: bool)

  /** What `os.ReadDir` gave: the entries, a missing directory, or another error. */
  datatype ReadDirResult = Entries(entries: seq<DirEntry>) | NotExist | ReadError(err: string)

  /** What `listJSONFiles` returns: the chat ids with a nil error, or a nil
      list with the error. */
  datatype Listing = Listed(ids: seq<string>) | Failed(err: string)

  const JsonExt := ".json"

  /** An entry that holds a chat: a file whose name ends in ".json". */
  predicate IsChatFile(e: DirEntry)
  {
    !e.isDir && HasSuffix(e.name, JsonExt)
  }

  /** The chat ids of `entries`, in entry order: the chat files' names without
      the extension. */
  function ChatIDs(entries: seq<DirEntry>): (ids: seq<string>)
    ensures |ids| <= |entries|
    decreases |entries|
  {
    if entries == [] then []
    else
      var e := entries[|entries| - 1];
      ChatIDs(entries[..|entries| - 1]) + (if IsChatFile(e) then [TrimSuffix(e.name, JsonExt)] else [])
  }

  /** `listJSONFiles` (main.go:211-226): a missing directory lists no chats and
      no error, any other read error is returned with no list, and otherwise
      the loop keeps the id of every chat file, in order. */
  method ListJSONFiles(read: ReadDirResult) returns (listing: Listing)
    ensures read.NotExist? ==> listing == Listed([])
    ensures read.ReadError? ==> listing == Failed(read.err)
    ensures read.Entries? ==> listing == Listed(ChatIDs(read.entries))
  {
    var res := [];
    if read.NotExist? {
      return Listed(res);
    }
    if read.ReadError? {
      return Failed(read.err);
    }
    var entries := read.entries;
    for i := 0 to |entries|
      invariant res == ChatIDs(entries[..i])
    {
      var e := entries[i];
      assert entries[..i + 1][..i] == entries[..i];
      if !e.isDir && HasSuffix(e.name, JsonExt) {
        res := res + [TrimSuffix(e.name, JsonExt)];
      }
    }
    assert entries[..|entries|] == entries;
    return Listed(res);
  }

  /** Listing a concatenation lists each part in turn: the ids keep the order
      of the entries they come from. */
  lemma {:induction false} ChatIDsAppend(a: seq<DirEntry>, b: seq<DirEntry>)
    ensures ChatIDs(a + b) == ChatIDs(a) + ChatIDs(b)
    decreases |b|
  {
    if b == [] {
      assert a + b == a;
    } else {
      var init := b[..|b| - 1];
      ChatIDsAppend(a, init);
      assert (a + b)[..|a + b| - 1] == a + init;
      assert (a + b)[|a + b| - 1] == b[|b| - 1];
    }
  }

  /** `id` plus the extension is the name of a file entry of `entries`. */
  ghost predicate FromChatFile(entries: seq<DirEntry>, id: string)
  {
    exists j :: 0 <= j < |entries| && !entries[j].isDir && entries[j].name == id + JsonExt
  }

  /** Every id comes from a chat file: adding the extension back gives the
      name of a file entry. */
  lemma {:induction false} ChatIDsSound(entries: seq<DirEntry>)
    ensures forall k :: 0 <= k < |ChatIDs(entries)| ==> FromChatFile(entries, ChatIDs(entries)[k])
    decreases |entries|
  {
    if entries != [] {
      var n := |entries|;
      var init := entries[..n - 1];
      var e := entries[n - 1];
      ChatIDsSound(init);
      var ids := ChatIDs(entries);
      assert ids == ChatIDs(init) + (if IsChatFile(e) then [TrimSuffix(e.name, JsonExt)] else []);
      forall k | 0 <= k < |ids| ensures FromChatFile(entries, ids[k]) {
        if k < |ChatIDs(init)| {
          assert ChatIDs(init)[k] == ids[k];
          assert FromChatFile(init, ids[k]);
          var j :| 0 <= j < |init| && !init[j].isDir && init[j].name == ids[k] + JsonExt;
          assert entries[j] == init[j];
        } else {
          assert IsChatFile(e) && ids[k] == TrimSuffix(e.name, JsonExt);
          assert e.name == ids[k] + JsonExt;
        }
      }
    }
  }

  /** No chat file is missed: the id of every chat file is listed. */
  lemma {:induction false} ChatIDsComplete(entries: seq<DirEntry>)
    ensures forall j :: 0 <= j < |entries| && IsChatFile(entries[j]) ==>
      TrimSuffix(entries[j].name, JsonExt) in ChatIDs(entries)
    decreases |entries|
  {
    if entries != [] {
      var n := |entries|;
      var init := entries[..n - 1];
      ChatIDsComplete(init);
      forall j | 0 <= j < n && IsChatFile(entries[j])
        ensures TrimSuffix(entries[j].name, JsonExt) in ChatIDs(entries)
      {
        if j < n - 1 {
          assert entries[j] == init[j];
        }
      }
    }
  }

  /** A chat as stored (main.go:206-209), updated in place by the POST handler. */
  class Chat {
    var title: string
    var messages: seq<ChatMessage>

    constructor (title: string, messages: seq<ChatMessage>)
      ensures this.title == title && this.messages == messages
    {
      this.title := title;
      this.messages := messages;
    }

    /** `chat.Messages = append(chat.Messages, msg)` (main.go:181): the posted
        message becomes the last one, the earlier ones and the title stay. */
    method Append(msg: ChatMessage)
      modifies this
      ensures messages == old(messages) + [msg]
      ensures |messages| == |old(messages)| + 1 && messages[|messages| - 1] == msg
      ensures messages[..|old(messages)|] == old(messages)
      ensures title == old(title)
    {
      messages := messages + [msg];
    }
  }
}
