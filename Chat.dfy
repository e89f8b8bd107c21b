/** The chat with the chef (components/AIChat.tsx): a message log that
    opens with a welcome, a guarded send that appends the user's turn and
    hands the earlier log to the service, and one reply or error turn
    appended once the service answers. */
module Chat {
  import opened Outcomes
  import opened Text
  import opened Types
  import opened Gateway

  const WelcomeText: string :=
    "¡Hola! Soy tu Chef personal. Pregúntame dudas de cocina, tiempos de cocción o trucos para arreglar un plato."

  const ErrorText: string := "Lo siento, tuve un error."

  const Welcome: ChatMessage := ChatMessage("welcome", Model, WelcomeText, false)

  /** The turn appended when the service call throws. Its id is the same
      every time, so ids in the log need not be unique. */
  const ErrorMessage: ChatMessage := ChatMessage("err", Model, ErrorText, true)

  /** One log message as a history turn: its role and its text as the only part. */
  function Entry(m: ChatMessage): HistoryEntry {
    HistoryEntry(m.role, [Part(m.text)])
  }

  /** `messages.map(...)`: the log as the history handed to the service. */
  function Snapshot(log: seq<ChatMessage>): (r: seq<HistoryEntry>)
    ensures |r| == |log|
    ensures forall i :: 0 <= i < |log| ==> r[i].role == log[i].role && r[i].parts == [Part(log[i].text)]
  {
    seq(|log|, i requires 0 <= i < |log| => Entry(log[i]))
  }

  /** Nothing of a message's role or text is lost in the history: two logs
      with the same history agree on both, message by message. */
  lemma SnapshotKeepsRolesAndTexts(a: seq<ChatMessage>, b: seq<ChatMessage>)
    requires Snapshot(a) == Snapshot(b)
    ensures |a| == |b|
    ensures forall i :: 0 <= i < |a| ==> a[i].role == b[i].role && a[i].text == b[i].text
  {
    forall i | 0 <= i < |a| ensures a[i].role == b[i].role && a[i].text == b[i].text {
      assert Snapshot(a)[i] == Snapshot(b)[i];
      assert Snapshot(a)[i].parts[0] == Part(a[i].text);
    }
  }

  /** Appending a message to the log appends its turn to the history. */
  lemma SnapshotAppend(log: seq<ChatMessage>, m: ChatMessage)
    ensures Snapshot(log + [m]) == Snapshot(log) + [Entry(m)]
  {
    assert forall i :: 0 <= i < |log| ==> (log + [m])[i] == log[i];
  }

  /** What a send hands to the service: the history and the new text. */
  datatype Pending = Pending(history: seq<HistoryEntry>, message: string)

  class Conversation {
    var messages: seq<ChatMessage>
    var input: string
    var loading: bool

    /** The log still opens with the welcome message. */
    predicate Valid()
      reads this
    {
      |messages| > 0 && messages[0] == Welcome
    }

    constructor()
      ensures messages == [Welcome] && input == "" && !loading
      ensures Valid()
    {
      messages := [Welcome];
      input := "";
      loading := false;
    }

    method SetInput(text: string)
      modifies this
      ensures input == text && messages == old(messages) && loading == old(loading)
    {
      input := text;
    }

    /** The synchronous part of handleSend. A blank input, or a send while
        an answer is awaited, does nothing. Otherwise the user's turn (id the
        Date.now() reading `now`) is appended, the input cleared, loading
        set, and the log as it was before this turn goes to the service
        with the text. */
    method Send(now: nat) returns (pending: Option<Pending>)
      requires Valid()
      modifies this
      ensures IsBlank(old(input)) || old(loading) ==>
                pending.None? && messages == old(messages) && input == old(input) && loading == old(loading)
      ensures !IsBlank(old(input)) && !old(loading) ==>
                && messages == old(messages) + [ChatMessage(Decimal(now), User, old(input), false)]
                && input == "" && loading
                && pending == Some(Pending(Snapshot(old(messages)), old(input)))
      ensures Valid()
    {
      if IsBlank(input) || loading {
        return None;
      }
      var history := Snapshot(messages);
      var text := input;
      messages := messages + [ChatMessage(Decimal(now), User, text, false)];
      input := "";
      loading := true;
      return Some(Pending(history, text));
    }

    /** The end of handleSend: the reply (id the Date.now() reading `now`
        plus one), or the error turn if the call threw, is appended, and
        loading is cleared either way. */
    method Receive(reply: Settled<string>, now: nat)
      requires Valid()
      modifies this
      ensures reply.Fulfilled? ==> messages == old(messages) + [ChatMessage(Decimal(now + 1), Model, reply.value, false)]
      ensures reply.Rejected? ==> messages == old(messages) + [ErrorMessage]
      ensures !loading && input == old(input)
      ensures Valid()
    {
      match reply {
        case Fulfilled(text) =>
          messages := messages + [ChatMessage(Decimal(now + 1), Model, text, false)];
        case Rejected =>
          messages := messages + [ErrorMessage];
      }
      loading := false;
    }

    /** handleSend with chatWithChef answering from the key and the
        provider's response; `sent` and `answered` are the two clock
        readings. A send that passes the guard grows the log by exactly two
        turns: the user's text, then the chef's non-empty answer. */
    method HandleSend(apiKey: string, response: ChatResponse, sent: nat, answered: nat)
      requires Valid()
      modifies this
      ensures IsBlank(old(input)) || old(loading) ==>
                messages == old(messages) && input == old(input) && loading == old(loading)
      ensures !IsBlank(old(input)) && !old(loading) ==>
                && |messages| == |old(messages)| + 2
                && messages[..|old(messages)|] == old(messages)
                && messages[|old(messages)|] == ChatMessage(Decimal(sent), User, old(input), false)
                && messages[|old(messages)| + 1].role == Model
                && messages[|old(messages)| + 1].text == ChatWithChef(apiKey, Snapshot(old(messages)), old(input), response)
                && messages[|old(messages)| + 1].text != ""
                && !messages[|old(messages)| + 1].isError
                && input == "" && !loading
      ensures Valid()
    {
      var pending := Send(sent);
      if pending.Some? {
        var answer := ChatWithChef(apiKey, pending.value.history, pending.value.message, response);
        Receive(Fulfilled(answer), answered);
      }
    }
  }
}
