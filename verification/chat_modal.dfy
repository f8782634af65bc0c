/**
 * The group-chat modal: a single module-wide STOMP client that is torn down
 * before a new one is built, a message list with three update rules (history
 * replaces everything after the welcome line, live messages are appended,
 * leaving appends a system line), guarded send and leave, and a clamped drag.
 */
module ChatModal {
  import opened Wrappers
  import Strings
  import HttpClient

  /** `MY_NICKNAME`: how the current user's own messages are labelled. */
  const MyNickname := "나"
  const SystemUser := "시스템"
  const WelcomeText := "채팅방에 오신 것을 환영합니다! 나눔에 대해 자유롭게 대화해보세요."
  const LeftText := "채팅방에서 나갔습니다."

  /** A line in the chat; the display timestamp is not modelled. */
  datatype Message = Message(id: int, user: string, text: string, isSystem: bool)

  /** What the server sends, both in the history and on the room topic. */
  datatype ChatMessageDto = ChatMessageDto(senderEmail: string, message: string)

  /** The welcome line every message list starts with. */
  const Welcome := Message(1, SystemUser, WelcomeText, true)

  /**
   * The sender-naming rule: `'나'` for the current user's own email, otherwise
   * everything before the first `@` (the whole address when there is none).
   */
  function SenderLabel(sender: string, me: string): (name: string)
    ensures sender == me ==> name == MyNickname
    ensures sender != me ==> Strings.StartsWith(sender, name) && '@' !in name
    ensures sender != me && '@' in sender ==> |name| < |sender| && sender[|name|] == '@'
    ensures sender != me && '@' !in sender ==> name == sender
  {
    if sender == me then MyNickname else Strings.Before(sender, '@')
  }

  /** One server message as a (non-system) chat line with the given id. */
  function FromDto(dto: ChatMessageDto, id: int, me: string): (m: Message)
    ensures m.id == id && m.text == dto.message && !m.isSystem
    ensures m.user == SenderLabel(dto.senderEmail, me)
  {
    Message(id, SenderLabel(dto.senderEmail, me), dto.message, false)
  }

  /**
   * The list after a successful history fetch: the first line kept, then the
   * history in server order with ids 2, 3, ...
   */
  function WithHistory(prev: seq<Message>, history: seq<ChatMessageDto>, me: string): (r: seq<Message>)
    requires |prev| >= 1
    ensures |r| == |history| + 1 && r[0] == prev[0]
    ensures forall i :: 0 <= i < |history| ==> r[i + 1] == FromDto(history[i], i + 2, me)
  {
    [prev[0]] + seq(|history|, i requires 0 <= i < |history| => FromDto(history[i], i + 2, me))
  }

  /** Whatever came after the first line is discarded: only the latest history counts. */
  lemma HistoryReplacesTail(prev: seq<Message>, extra: seq<Message>, h1: seq<ChatMessageDto>, h2: seq<ChatMessageDto>, me: string)
    requires |prev| >= 1
    ensures WithHistory(WithHistory(prev, h1, me) + extra, h2, me) == WithHistory(prev, h2, me)
  {
    var a := WithHistory(WithHistory(prev, h1, me) + extra, h2, me);
    var b := WithHistory(prev, h2, me);
    assert |a| == |b|;
    forall i | 0 <= i < |a| ensures a[i] == b[i] {
      if i > 0 {
        assert a[(i - 1) + 1] == FromDto(h2[i - 1], i + 1, me);
      }
    }
  }

  /** The connection guard: open, a truthy email, and a positive room id. */
  predicate ConnectGuard(isOpen: bool, me: Option<string>, roomId: Option<int>) {
    isOpen && me.Some? && me.value != "" && roomId.Some? && roomId.value > 0
  }

  /** A STOMP client; only its activation state matters here. */
  class StompClient {
    var active: bool
    const roomId: int
    /** The `Authorization` connect header. */
    const authorization: string

    constructor(roomId: int, authorization: string)
      ensures !active && this.roomId == roomId && this.authorization == authorization
    {
      active := false;
      this.roomId := roomId;
      this.authorization := authorization;
    }

    method Activate()
      modifies this
      ensures active
    {
      active := true;
    }

    method Deactivate()
      modifies this
      ensures !active
    {
      active := false;
    }
  }

  /**
   * The module-level `stompClient` variable. `built` records every client ever
   * stored in it; the invariant is that no client other than the current one
   * is active.
   */
  class ClientSlot {
    var client: StompClient?
    ghost var built: set<StompClient>

    ghost predicate Valid()
      reads this, built
    {
      (client != null ==> client in built) &&
      forall c :: c in built && c.active ==> c == client
    }

    constructor()
      ensures Valid() && client == null && built == {}
    {
      client := null;
      built := {};
    }

    /** The start of every effect run: an active client is deactivated and dropped. */
    method TearDownIfActive()
      requires Valid()
      modifies this, built
      ensures Valid() && built == old(built)
      ensures forall c :: c in built ==> !c.active
      ensures old(client) != null && old(client.active) ==> client == null
      ensures !(old(client) != null && old(client.active)) ==> client == old(client)
    {
      if client != null && client.active {
        client.Deactivate();
        client := null;
      }
    }

    /** Builds and activates a new client; every earlier client must already be inactive. */
    method Install(roomId: int, authorization: string)
      requires Valid() && forall c :: c in built ==> !c.active
      modifies this
      ensures Valid()
      ensures client != null && fresh(client) && client.active
      ensures client.roomId == roomId && client.authorization == authorization
      ensures built == old(built) + {client}
      ensures forall c :: c in old(built) ==> !c.active
    {
      var c := new StompClient(roomId, authorization);
      client := c;
      built := built + {c};
      c.Activate();
    }

    /** Cleanup and leaving: whatever client is held is deactivated and dropped. */
    method Release()
      requires Valid()
      modifies this, built
      ensures Valid() && client == null && built == old(built)
      ensures forall c :: c in built ==> !c.active
    {
      if client != null {
        client.Deactivate();
        client := null;
      }
    }
  }

  /** Under the slot invariant, at most one client is active at any time. */
  lemma AtMostOneActive(slot: ClientSlot, a: StompClient, b: StompClient)
    requires slot.Valid() && a in slot.built && b in slot.built && a.active && b.active
    ensures a == b
  {
  }

  /** A request made once the client has connected. */
  datatype Call = FetchHistory(roomId: int) | Subscribe(topicRoomId: int) | MarkRead(roomId: int)

  /** A chat message as published to `/publish/<roomId>`. */
  datatype Outgoing = Outgoing(roomId: int, message: string, senderEmail: string)

  datatype SendOutcome =
    | NoLogin                        // alert: no login information
    | NotSent                        // the guard failed; nothing happens
    | Published(sent: Outgoing)
    | PublishFailed(attempt: Outgoing)  // publish threw; alert

  datatype LeaveOutcome =
    | LeaveNoLogin                   // alert: no login information
    | Left(participantChange: int)   // the modal closes
    | LeaveFailed                    // the server refused; alert

  /** The system line appended when the user leaves. */
  function LeaveNotice(id: int): (m: Message)
    ensures m.id == id && m.isSystem && m.user == SystemUser && m.text == LeftText
  {
    Message(id, SystemUser, LeftText, true)
  }

  /** The state of one open chat modal, sharing the module-wide client slot. */
  class ChatModalView {
    var messages: seq<Message>
    var newMessage: string
    var isParticipating: bool
    const slot: ClientSlot

    ghost predicate Valid()
      reads this, slot, slot.built
    {
      |messages| >= 1 && messages[0] == Welcome && slot.Valid()
    }

    constructor(slot: ClientSlot)
      requires slot.Valid()
      ensures Valid() && this.slot == slot
      ensures messages == [Welcome] && newMessage == "" && isParticipating
    {
      this.slot := slot;
      messages := [Welcome];
      newMessage := "";
      isParticipating := true;
    }

    /**
     * The connect effect: tear down an active client, then build and activate
     * a new one only when the guard holds. When it fails, no client exists to
     * connect, so no history, subscription or read call can follow.
     */
    method ConnectEffect(isOpen: bool, me: Option<string>, roomId: Option<int>, accessToken: Option<string>)
      returns (connected: bool)
      requires Valid()
      modifies slot, slot.built
      ensures Valid()
      ensures connected <==> ConnectGuard(isOpen, me, roomId)
      ensures forall c :: c in old(slot.built) ==> !c.active
      ensures !connected ==> slot.built == old(slot.built) && (slot.client == null || !slot.client.active)
      ensures connected ==> (
        && slot.client != null && fresh(slot.client) && slot.client.active
        && slot.client.roomId == roomId.value
        && slot.client.authorization == HttpClient.Bearer(accessToken.GetOr(""))
        && slot.built == old(slot.built) + {slot.client})
    {
      slot.TearDownIfActive();
      if !ConnectGuard(isOpen, me, roomId) {
        return false;
      }
      slot.Install(roomId.value, HttpClient.Bearer(accessToken.GetOr("")));
      return true;
    }

    /** `onConnect` of the active client: history, then the room topic, then the read mark. */
    method OnConnect() returns (calls: seq<Call>)
      requires Valid() && slot.client != null && slot.client.active
      ensures |calls| == 3 && calls[0].FetchHistory? && calls[1].Subscribe? && calls[2].MarkRead?
      ensures calls[0].roomId == calls[1].topicRoomId == calls[2].roomId == slot.client.roomId
    {
      var r := slot.client.roomId;
      calls := [FetchHistory(r), Subscribe(r), MarkRead(r)];
    }

    /** The history response: a fetched list replaces the tail; a failed fetch changes nothing. */
    method OnHistory(result: Option<seq<ChatMessageDto>>, me: string)
      requires Valid()
      modifies this
      ensures Valid()
      ensures result.Some? ==> messages == WithHistory(old(messages), result.value, me)
      ensures result.None? ==> messages == old(messages)
      ensures newMessage == old(newMessage) && isParticipating == old(isParticipating)
    {
      if result.Some? {
        messages := WithHistory(messages, result.value, me);
      }
    }

    /** A message on the room topic is appended; `now` stands for `Date.now()`, its id. */
    method OnLiveMessage(dto: ChatMessageDto, now: int, me: string)
      requires Valid()
      modifies this
      ensures Valid()
      ensures messages == old(messages) + [FromDto(dto, now, me)]
      ensures newMessage == old(newMessage) && isParticipating == old(isParticipating)
    {
      messages := messages + [FromDto(dto, now, me)];
    }

    /**
     * `handleSendMessage`. Publishing needs a truthy email, non-blank text,
     * participation and an active client; the input is cleared only when the
     * publish call does not throw. The message list never changes.
     */
    method SendMessage(me: Option<string>, roomId: int, publishThrows: bool) returns (r: SendOutcome)
      requires Valid()
      modifies this
      ensures Valid()
      ensures messages == old(messages) && isParticipating == old(isParticipating)
      ensures (me.None? || me.value == "") <==> r == NoLogin
      ensures (r.Published? || r.PublishFailed?) <==>
        me.Some? && me.value != "" && Strings.Trim(old(newMessage)) != "" && isParticipating
        && slot.client != null && slot.client.active
      ensures r.Published? <==> (r.Published? || r.PublishFailed?) && !publishThrows
      ensures r.Published? ==> r.sent == Outgoing(roomId, Strings.Trim(old(newMessage)), me.value)
      ensures r.PublishFailed? ==> r.attempt == Outgoing(roomId, Strings.Trim(old(newMessage)), me.value)
      ensures r.Published? ==> newMessage == ""
      ensures !r.Published? ==> newMessage == old(newMessage)
    {
      if me.None? || me.value == "" {
        return NoLogin;
      }
      var text := Strings.Trim(newMessage);
      if text != "" && isParticipating && slot.client != null && slot.client.active {
        var dto := Outgoing(roomId, text, me.value);
        if publishThrows {
          return PublishFailed(dto);
        }
        newMessage := "";
        return Published(dto);
      }
      return NotSent;
    }

    /**
     * `handleLeaveChat`. On success: no longer participating, −1 reported, the
     * client released and one system line appended. A failure changes nothing.
     */
    method LeaveChat(me: Option<string>, leaveOk: bool) returns (r: LeaveOutcome)
      requires Valid()
      modifies this, slot, slot.built
      ensures Valid()
      ensures (me.None? || me.value == "") <==> r == LeaveNoLogin
      ensures r.Left? <==> me.Some? && me.value != "" && leaveOk
      ensures r.Left? ==> (
        && r.participantChange == -1 && !isParticipating
        && slot.client == null && (forall c :: c in slot.built ==> !c.active)
        && messages == old(messages) + [LeaveNotice(|old(messages)| + 1)])
      ensures !r.Left? ==> (
        && messages == old(messages) && isParticipating == old(isParticipating)
        && slot.client == old(slot.client))
      ensures !r.Left? && slot.client != null ==> slot.client.active == old(slot.client.active)
      ensures newMessage == old(newMessage)
    {
      if me.None? || me.value == "" {
        return LeaveNoLogin;
      }
      if !leaveOk {
        return LeaveFailed;
      }
      isParticipating := false;
      slot.Release();
      messages := messages + [LeaveNotice(|messages| + 1)];
      return Left(-1);
    }

    /** The effect's cleanup: whatever client is held is deactivated and dropped. */
    method Cleanup()
      requires Valid()
      modifies slot, slot.built
      ensures Valid() && slot.client == null
      ensures forall c :: c in slot.built ==> !c.active
    {
      slot.Release();
    }
  }

  /** `Math.max(16, Math.min(hi, v))`. */
  function Clamp(v: int, hi: int): (r: int)
    ensures r >= 16
    ensures hi >= 16 ==> r <= hi
    ensures 16 <= v <= hi ==> r == v
    ensures v < 16 ==> r == 16
    ensures v > hi >= 16 ==> r == hi
    ensures r == 16 || r == v || r == hi
  {
    if hi < v then (if hi > 16 then hi else 16) else (if v > 16 then v else 16)
  }

  /** The modal's size: full width minus margins on narrow windows, 384 × 600 otherwise. */
  function ModalSize(innerWidth: int, innerHeight: int): (size: (int, int))
    ensures innerWidth < 640 ==> size == (innerWidth - 32, innerHeight - 100)
    ensures innerWidth >= 640 ==> size == (384, 600)
  {
    if innerWidth < 640 then (innerWidth - 32, innerHeight - 100) else (384, 600)
  }

  /** The dragged position: the pointer minus the grab offset, kept 16 pixels inside the window. */
  function DragPosition(clientX: int, clientY: int, offsetX: int, offsetY: int, innerWidth: int, innerHeight: int)
    : (pos: (int, int))
    ensures var size := ModalSize(innerWidth, innerHeight);
      var maxX := innerWidth - size.0 - 16;
      var maxY := innerHeight - size.1 - 16;
      && pos.0 >= 16 && pos.1 >= 16
      && (maxX >= 16 ==> pos.0 <= maxX)
      && (maxY >= 16 ==> pos.1 <= maxY)
      && (16 <= clientX - offsetX <= maxX ==> pos.0 == clientX - offsetX)
      && (16 <= clientY - offsetY <= maxY ==> pos.1 == clientY - offsetY)
  {
    var size := ModalSize(innerWidth, innerHeight);
    (Clamp(clientX - offsetX, innerWidth - size.0 - 16), Clamp(clientY - offsetY, innerHeight - size.1 - 16))
  }
}
