/** The in-memory store of conversations, by session key. */
module SessionManager {
  import opened Prelude
  import opened Transcript

  datatype Session = Session(messages: seq<Message>, summary: string)

  /** What TruncateHistory leaves; zero or less means nothing. */
  function Truncated(messages: seq<Message>, keepLast: int): seq<Message> {
    if keepLast <= 0 then [] else LastN(messages, keepLast)
  }

  class SessionManager {
    var sessions: map<string, Session>

    /** The conversation under a key; a key never used has none. */
    ghost function At(key: string): Session
      reads this
    {
      if key in sessions then sessions[key] else Session([], "")
    }

    constructor ()
      ensures sessions == map[]
    {
      sessions := map[];
    }

    method AddMessage(key: string, role: Role, content: string)
      modifies this
      ensures sessions == old(sessions)[key := old(At(key)).(messages := old(At(key)).messages + [Plain(role, content)])]
    {
      AddFullMessage(key, Plain(role, content));
    }

    method AddFullMessage(key: string, msg: Message)
      modifies this
      ensures sessions == old(sessions)[key := old(At(key)).(messages := old(At(key)).messages + [msg])]
    {
      var session := if key in sessions then sessions[key] else Session([], "");
      sessions := sessions[key := session.(messages := session.messages + [msg])];
    }

    method GetHistory(key: string) returns (history: seq<Message>)
      ensures history == At(key).messages
    {
      history := if key in sessions then sessions[key].messages else [];
    }

    method GetSummary(key: string) returns (summary: string)
      ensures summary == At(key).summary
    {
      summary := if key in sessions then sessions[key].summary else "";
    }

    method SetSummary(key: string, summary: string)
      modifies this
      ensures sessions == if key in old(sessions) then old(sessions)[key := old(At(key)).(summary := summary)]
                          else old(sessions)
    {
      if key in sessions {
        sessions := sessions[key := sessions[key].(summary := summary)];
      }
    }

    method TruncateHistory(key: string, keepLast: int)
      modifies this
      ensures sessions == if key in old(sessions)
                          then old(sessions)[key := old(At(key)).(messages := Truncated(old(At(key)).messages, keepLast))]
                          else old(sessions)
    {
      if key !in sessions {
        return;
      }
      var session := sessions[key];
      if keepLast <= 0 {
        sessions := sessions[key := session.(messages := [])];
        return;
      }
      if |session.messages| <= keepLast {
        assert sessions == sessions[key := session];
        return;
      }
      sessions := sessions[key := session.(messages := session.messages[|session.messages| - keepLast..])];
    }

    method SetHistory(key: string, history: seq<Message>)
      modifies this
      ensures sessions == if key in old(sessions) then old(sessions)[key := old(At(key)).(messages := history)]
                          else old(sessions)
    {
      if key in sessions {
        sessions := sessions[key := sessions[key].(messages := history)];
      }
    }
  }
}
