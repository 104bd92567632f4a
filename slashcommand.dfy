// The slash-command query that Mattermost posts as an HTTP form, and the
// required-field validation that `Deserialize` runs over it.

module SlashCommand {
  import opened Wrappers

  /** A request form: each key with the values sent for it, in order. */
  type Form = map<string, seq<string>>

  /** The value of `key` as a form lookup returns it: the first value sent, or "". */
  function FormValue(form: Form, key: string): string
  {
    if key in form && |form[key]| > 0 then form[key][0] else ""
  }

  /** The values held by a `Query`, field by field, in declaration order. */
  datatype QueryValue = QueryValue(
    channelId: string,
    channelName: string,
    command: string,
    responseUrl: string,
    teamDomain: string,
    teamId: string,
    text: string,
    token: string,
    userId: string,
    userName: string)

  /** A query whose every field is the empty string. */
  const EmptyQuery := QueryValue("", "", "", "", "", "", "", "", "", "")

  /** The keys that must be non-empty, in the order they are checked. */
  const RequiredKeys: seq<string> := ["channel_id", "channel_name", "command", "response_url",
                                      "team_domain", "team_id", "user_id", "user_name"]

  /** `q` after its nine form fields are read from `form`: the token is never assigned. */
  function Filled(q: QueryValue, form: Form): (r: QueryValue)
    ensures r.token == q.token
  {
    QueryValue(FormValue(form, "channel_id"), FormValue(form, "channel_name"),
               FormValue(form, "command"), FormValue(form, "response_url"),
               FormValue(form, "team_domain"), FormValue(form, "team_id"),
               FormValue(form, "text"), q.token,
               FormValue(form, "user_id"), FormValue(form, "user_name"))
  }

  /** The error for an empty required field. */
  function EmptyError(key: string): string
  {
    "empty " + key
  }

  /**
   * The reference validation: the error for the first of `keys` whose form
   * value is empty, or None when none is.
   */
  function FirstMissing(form: Form, keys: seq<string>): Option<string>
  {
    MissingFrom(form, keys, 0)
  }

  /** The error for the first of `keys[i..]` whose form value is empty. */
  function MissingFrom(form: Form, keys: seq<string>, i: nat): Option<string>
    decreases |keys| - i
  {
    if i >= |keys| then None
    else if FormValue(form, keys[i]) == "" then Some(EmptyError(keys[i]))
    else MissingFrom(form, keys, i + 1)
  }

  /** The chain of checks on the fields of a filled-in query. */
  function Validate(q: QueryValue): Option<string>
  {
    if q.channelId == "" then Some(EmptyError("channel_id"))
    else if q.channelName == "" then Some(EmptyError("channel_name"))
    else if q.command == "" then Some(EmptyError("command"))
    else if q.responseUrl == "" then Some(EmptyError("response_url"))
    else if q.teamDomain == "" then Some(EmptyError("team_domain"))
    else if q.teamId == "" then Some(EmptyError("team_id"))
    else if q.userId == "" then Some(EmptyError("user_id"))
    else if q.userName == "" then Some(EmptyError("user_name"))
    else None
  }

  /** The field-by-field chain agrees with the reference over the required keys. */
  lemma ValidateIsFirstMissing(q: QueryValue, form: Form)
    ensures Validate(Filled(q, form)) == FirstMissing(form, RequiredKeys)
  {
    var ks := RequiredKeys;
    assert MissingFrom(form, ks, 8) == None;
    assert MissingFrom(form, ks, 7) == if FormValue(form, "user_name") == "" then Some(EmptyError("user_name")) else None;
  }

  /** No error from `i` on exactly when every key from `i` on has a non-empty value. */
  lemma {:induction false} MissingFromNoneIff(form: Form, keys: seq<string>, i: nat)
    requires i <= |keys|
    ensures MissingFrom(form, keys, i).None? <==> forall j :: i <= j < |keys| ==> FormValue(form, keys[j]) != ""
    decreases |keys| - i
  {
    if i < |keys| {
      MissingFromNoneIff(form, keys, i + 1);
    }
  }

  /** A query validates exactly when every required key has a non-empty value. */
  lemma FirstMissingNoneIff(form: Form, keys: seq<string>)
    ensures FirstMissing(form, keys).None? <==> forall k :: k in keys ==> FormValue(form, k) != ""
  {
    MissingFromNoneIff(form, keys, 0);
    assert forall k :: k in keys <==> exists j :: 0 <= j < |keys| && keys[j] == k;
  }

  /** An error from `i` on names the first key from `i` on whose value is empty. */
  lemma {:induction false} MissingFromNamesFirst(form: Form, keys: seq<string>, i: nat) returns (m: nat)
    requires MissingFrom(form, keys, i).Some?
    ensures i <= m < |keys|
    ensures MissingFrom(form, keys, i) == Some(EmptyError(keys[m]))
    ensures FormValue(form, keys[m]) == ""
    ensures forall j :: i <= j < m ==> FormValue(form, keys[j]) != ""
    decreases |keys| - i
  {
    if FormValue(form, keys[i]) == "" {
      m := i;
    } else {
      m := MissingFromNamesFirst(form, keys, i + 1);
    }
  }

  /** An error names a key whose value is empty, and every key before it has a value. */
  lemma FirstMissingNamesFirst(form: Form, keys: seq<string>) returns (m: nat)
    requires FirstMissing(form, keys).Some?
    ensures m < |keys|
    ensures FirstMissing(form, keys) == Some(EmptyError(keys[m]))
    ensures FormValue(form, keys[m]) == ""
    ensures forall j :: 0 <= j < m ==> FormValue(form, keys[j]) != ""
  {
    m := MissingFromNamesFirst(form, keys, 0);
  }

  /** The message text is optional: it never decides validation. */
  lemma TextNeverRequired(q: QueryValue, t: string)
    ensures Validate(q.(text := t)) == Validate(q)
    ensures "text" !in RequiredKeys
  {
  }

  /** A `Query` record as `Deserialize` fills it in place. */
  class Query {
    var channelId: string
    var channelName: string
    var command: string
    var responseUrl: string
    var teamDomain: string
    var teamId: string
    var text: string
    var token: string
    var userId: string
    var userName: string

    function Value(): QueryValue
      reads this
    {
      QueryValue(channelId, channelName, command, responseUrl, teamDomain, teamId,
                 text, token, userId, userName)
    }

    /** The zero value of the record. */
    constructor()
      ensures Value() == EmptyQuery
    {
      channelId, channelName, command, responseUrl, teamDomain := "", "", "", "", "";
      teamId, text, token, userId, userName := "", "", "", "", "";
    }

    /**
     * Reads the nine form fields into the record, then reports the first
     * required one that is empty.
     */
    method Deserialize(form: Form) returns (err: Option<string>)
      modifies this
      ensures Value() == Filled(old(Value()), form)
      ensures err == FirstMissing(form, RequiredKeys)
    {
      ReadForm(form);
      ValidateIsFirstMissing(old(Value()), form);
      err := CheckRequired();
    }

    /** Assigns every field but the token from its form value, in declaration order. */
    method ReadForm(form: Form)
      modifies this
      ensures Value() == Filled(old(Value()), form)
    {
      ReadChannel(form);
      ReadTeam(form);
      ReadUser(form);
    }

    /** The channel fields and the command name. */
    method ReadChannel(form: Form)
      modifies this
      ensures Value() == old(Value()).(channelId := FormValue(form, "channel_id"),
                                       channelName := FormValue(form, "channel_name"),
                                       command := FormValue(form, "command"))
    {
      channelId := FormValue(form, "channel_id");
      channelName := FormValue(form, "channel_name");
      command := FormValue(form, "command");
    }

    /** The response URL and the team fields. */
    method ReadTeam(form: Form)
      modifies this
      ensures Value() == old(Value()).(responseUrl := FormValue(form, "response_url"),
                                       teamDomain := FormValue(form, "team_domain"),
                                       teamId := FormValue(form, "team_id"))
    {
      responseUrl := FormValue(form, "response_url");
      teamDomain := FormValue(form, "team_domain");
      teamId := FormValue(form, "team_id");
    }

    /** The message text and the user fields. */
    method ReadUser(form: Form)
      modifies this
      ensures Value() == old(Value()).(text := FormValue(form, "text"),
                                       userId := FormValue(form, "user_id"),
                                       userName := FormValue(form, "user_name"))
    {
      text := FormValue(form, "text");
      userId := FormValue(form, "user_id");
      userName := FormValue(form, "user_name");
    }

    /** The chain of early-return checks over the required fields, in order. */
    method CheckRequired() returns (err: Option<string>)
      ensures err == Validate(Value())
    {
      if channelId == "" {
        return Some(EmptyError("channel_id"));
      }
      if channelName == "" {
        return Some(EmptyError("channel_name"));
      }
      if command == "" {
        return Some(EmptyError("command"));
      }
      if responseUrl == "" {
        return Some(EmptyError("response_url"));
      }
      if teamDomain == "" {
        return Some(EmptyError("team_domain"));
      }
      if teamId == "" {
        return Some(EmptyError("team_id"));
      }
      if userId == "" {
        return Some(EmptyError("user_id"));
      }
      if userName == "" {
        return Some(EmptyError("user_name"));
      }
      return None;
    }
  }
}
