/**
  The snippet store shared by the playground and the AI panel
  (Frontend/src/context/SnippetContext.jsx): a table of snippet entries
  keyed by snippet id, the id of the snippet the AI panel is bound to,
  and whether the panel is open.
*/
module SnippetContext {
  import opened Wrappers
  import opened Codes

  type SnippetId = string

  datatype Sender = User | Bot

  /** A chat message; its numeric id and timestamp are left out. */
  datatype Message = Message(text: string, sender: Sender)

  /** What a caller binds a snippet with: its name and its code. */
  datatype SnippetInfo = SnippetInfo(name: Option<string>, codes: Option<PartialCodes>)

  /** One entry of the table. Each property may be missing, since
      `updateSnippetCode` and `addChatMessage` can create an entry for an
      id that was never bound. */
  datatype Entry = Entry(name: Option<string>, codes: Option<PartialCodes>, chatMessages: Option<seq<Message>>) {

    /** The entry with its messages emptied, if it has a message list. */
    function ChatCleared(): (e: Entry)
      ensures e.name == name && e.codes == codes
      ensures chatMessages.Some? <==> e.chatMessages == Some([])
      ensures chatMessages.None? ==> e == this
    {
      if chatMessages.Some? then this.(chatMessages := Some([])) else this
    }
  }

  /** `prev[id]`, spread into an object literal: a missing entry spreads as
      an entry without properties. */
  function EntryOf(data: map<SnippetId, Entry>, id: SnippetId): (e: Entry)
    ensures id in data ==> e == data[id]
    ensures id !in data ==> e.name.None? && e.codes.None? && e.chatMessages.None?
  {
    if id in data then data[id] else Entry(None, None, None)
  }

  /** `snippetData[id]?.chatMessages || []`: the messages of `id`, or none
      for an unknown id or an entry without a message list. */
  function Messages(data: map<SnippetId, Entry>, id: SnippetId): (r: seq<Message>)
    ensures id !in data || data[id].chatMessages.None? ==> r == []
    ensures id in data && data[id].chatMessages.Some? ==> r == data[id].chatMessages.value
  {
    EntryOf(data, id).chatMessages.GetOr([])
  }

  /** The table after `clearSnippet`: the same keys, and every entry that has
      a message list has an empty one, all else kept. */
  function ChatsCleared(data: map<SnippetId, Entry>): (r: map<SnippetId, Entry>)
    ensures r.Keys == data.Keys
    ensures forall id :: id in r ==> r[id] == data[id].ChatCleared()
  {
    map id | id in data :: data[id].ChatCleared()
  }

  /** Clearing is idempotent. */
  lemma ClearIdempotent(data: map<SnippetId, Entry>)
    ensures ChatsCleared(ChatsCleared(data)) == ChatsCleared(data)
  {
  }

  /** After clearing, no snippet has a message left. */
  lemma ClearedHasNoMessages(data: map<SnippetId, Entry>, id: SnippetId)
    ensures Messages(ChatsCleared(data), id) == []
  {
  }

  /** The `forEach` of `clearSnippet`: a copy of `prev` in which every entry
      with a message list gets an empty one, one key at a time. */
  method ClearChats(prev: map<SnippetId, Entry>) returns (updated: map<SnippetId, Entry>)
    ensures updated == ChatsCleared(prev)
  {
    updated := prev;
    var pending := prev.Keys;
    while pending != {}
      invariant pending <= prev.Keys
      invariant updated.Keys == prev.Keys
      invariant forall id :: id in updated ==>
                  updated[id] == if id in pending then prev[id] else prev[id].ChatCleared()
      decreases pending
    {
      var id :| id in pending;
      if updated[id].chatMessages.Some? {
        updated := updated[id := updated[id].(chatMessages := Some([]))];
      }
      pending := pending - {id};
    }
  }

  /** The table after `updateSnippetCode(id, newCode)`: entry `id`, or an
      empty one if there was none, with its code replaced. */
  function CodeReplaced(data: map<SnippetId, Entry>, id: SnippetId, newCode: PartialCodes): (r: map<SnippetId, Entry>)
    ensures r.Keys == data.Keys + {id}
    ensures r[id] == EntryOf(data, id).(codes := Some(newCode))
    ensures forall other :: other != id && other in data ==> r[other] == data[other]
  {
    data[id := EntryOf(data, id).(codes := Some(newCode))]
  }

  /** The table after `addChatMessage(id, message)`: entry `id`, or an
      empty one if there was none, with `message` appended to its messages,
      or to no messages if it had none. */
  function Appended(data: map<SnippetId, Entry>, id: SnippetId, message: Message): (r: map<SnippetId, Entry>)
    ensures r.Keys == data.Keys + {id}
    ensures r[id] == EntryOf(data, id).(chatMessages := Some(Messages(data, id) + [message]))
    ensures forall other :: other != id && other in data ==> r[other] == data[other]
  {
    data[id := EntryOf(data, id).(chatMessages := Some(Messages(data, id) + [message]))]
  }

  /** Appending grows the messages of `id` by exactly `message` at the end,
      keeps the code and name of `id`, and leaves every other id's messages. */
  lemma AppendedMessages(data: map<SnippetId, Entry>, id: SnippetId, message: Message)
    ensures Messages(Appended(data, id, message), id) == Messages(data, id) + [message]
    ensures |Messages(Appended(data, id, message), id)| == |Messages(data, id)| + 1
    ensures Messages(Appended(data, id, message), id)[|Messages(data, id)|] == message
    ensures EntryOf(Appended(data, id, message), id).codes == EntryOf(data, id).codes
    ensures forall other :: other != id ==> Messages(Appended(data, id, message), other) == Messages(data, other)
  {
  }

  /** Replacing the code keeps the messages of every snippet. */
  lemma CodeReplacedMessages(data: map<SnippetId, Entry>, id: SnippetId, newCode: PartialCodes)
    ensures forall other :: Messages(CodeReplaced(data, id, newCode), other) == Messages(data, other)
  {
  }

  /** The provider's state. */
  class SnippetStore {
    var currentSnippet: Option<SnippetId>
    var isChatOpen: bool
    var snippetData: map<SnippetId, Entry>

    /** The snippet the panel is bound to always has an entry. */
    ghost predicate Valid()
      reads this
    {
      currentSnippet.Some? ==> currentSnippet.value in snippetData
    }

    /** No snippet bound, the panel closed, an empty table. */
    constructor ()
      ensures Valid()
      ensures currentSnippet.None? && !isChatOpen && snippetData == map[]
    {
      currentSnippet := None;
      isChatOpen := false;
      snippetData := map[];
    }

    /** `getChatMessages`. */
    function GetChatMessages(id: SnippetId): (r: seq<Message>)
      reads this
      ensures r == Messages(snippetData, id)
    {
      Messages(snippetData, id)
    }

    /** `bindSnippet`: binding a different snippet points the panel at it and
        gives it a fresh entry with no messages, leaving every other entry;
        binding the bound snippet again changes nothing but the open flag. */
    method BindSnippet(id: SnippetId, info: SnippetInfo)
      requires Valid()
      modifies this
      ensures Valid()
      ensures isChatOpen
      ensures old(currentSnippet) != Some(id) ==>
                currentSnippet == Some(id)
                && snippetData == old(snippetData)[id := Entry(info.name, info.codes, Some([]))]
      ensures old(currentSnippet) == Some(id) ==>
                currentSnippet == old(currentSnippet) && snippetData == old(snippetData)
      ensures GetChatMessages(id) == if old(currentSnippet) != Some(id) then [] else old(GetChatMessages(id))
    {
      if currentSnippet != Some(id) {
        currentSnippet := Some(id);
        snippetData := snippetData[id := Entry(info.name, info.codes, Some([]))];
      }
      isChatOpen := true;
    }

    /** `clearSnippet`: unbinds, closes the panel and empties every message
        list, keeping all keys and all other properties. */
    method ClearSnippet()
      modifies this
      ensures Valid()
      ensures currentSnippet.None? && !isChatOpen
      ensures snippetData == ChatsCleared(old(snippetData))
      ensures forall id :: GetChatMessages(id) == []
    {
      currentSnippet := None;
      isChatOpen := false;
      snippetData := ClearChats(snippetData);
      forall id ensures GetChatMessages(id) == [] {
        ClearedHasNoMessages(old(snippetData), id);
      }
    }

    /** `updateSnippetCode`: only the code of entry `id` changes. */
    method UpdateSnippetCode(id: SnippetId, newCode: PartialCodes)
      requires Valid()
      modifies this`snippetData
      ensures Valid()
      ensures snippetData == CodeReplaced(old(snippetData), id, newCode)
    {
      snippetData := snippetData[id := EntryOf(snippetData, id).(codes := Some(newCode))];
    }

    /** `addChatMessage`: the messages of `id` grow by `message` at the end;
        the entry's other properties and every other entry stay. */
    method AddChatMessage(id: SnippetId, message: Message)
      requires Valid()
      modifies this`snippetData
      ensures Valid()
      ensures snippetData == Appended(old(snippetData), id, message)
    {
      var messages := Messages(snippetData, id);
      snippetData := snippetData[id := EntryOf(snippetData, id).(chatMessages := Some(messages + [message]))];
    }
  }
}
