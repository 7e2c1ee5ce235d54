/**
 * `emotivLib.EmotivLauncherDelegate`: the Cortex API handshake with an Emotiv
 * headset. Each reply to request k makes the delegate send request k + 1, from
 * `getCortexInfo` (1) to `subscribe` (7), as JSON-RPC 2.0 request objects (section 4
 * of the JSON-RPC 2.0 specification); the reply to `subscribe` latches `subscribed`.
 * The web socket is an outbox of request objects, and a reply arrives with its JSON
 * already read into string fields.
 */
module Cortex {
  import opened Wrappers

  /** A value in a request's `params` object. */
  datatype Param = Text(text: string) | Number(n: int) | Texts(items: seq<string>)

  /** A JSON-RPC request object; `params` is absent for the two requests that take none. */
  datatype Request = Request(id: int, jsonrpc: string, methodName: string, params: Option<map<string, Param>>)

  /** The `result` of a reply: a JSON object, a JSON array of objects, or anything else,
      each object reduced to its string-valued members. */
  datatype Reply = ObjectReply(fields: map<string, string>) | ArrayReply(items: seq<map<string, string>>) | OtherReply

  /** The `JSONException` that escapes `handle`. */
  datatype CortexFault = NotAnObject | NotAnArray | NoHeadset | MissingKey(key: string)

  /** The step number of every Cortex method the handshake calls. */
  const METHOD_IDS: map<string, int> := map[
    "getCortexInfo" := 1, "requestAccess" := 2, "authorize" := 3, "getUserInformation" := 4,
    "queryHeadsets" := 5, "createSession" := 6, "subscribe" := 7]

  /** A JSON-RPC 2.0 request whose id is the step number of its method. */
  predicate WellFormed(r: Request)
  {
    r.jsonrpc == "2.0" && r.methodName in METHOD_IDS && r.id == METHOD_IDS[r.methodName]
  }

  /** `JSONObject.put(key, value)` with a `String` that may be `null`: a `null` value
      leaves the key out. */
  function PutText(params: map<string, Param>, key: string, value: Option<string>): (r: map<string, Param>)
    ensures key in r <==> key in params || value.Some?
    ensures value.Some? ==> r[key] == Text(value.value)
    ensures value.None? && key in params ==> r[key] == params[key]
    ensures forall k :: k in r ==> k in params || k == key
    ensures forall k :: k in params && k != key ==> k in r && r[k] == params[k]
  {
    if value.Some? then params[key := Text(value.value)] else params
  }

  /** `new JSONObject(result.toString()).getString(key)`. */
  function GetString(result: Reply, key: string): (r: Result<string, CortexFault>)
    ensures r.Success? <==> result.ObjectReply? && key in result.fields
    ensures r.Success? ==> r.value == result.fields[key]
  {
    if !result.ObjectReply? then Failure(NotAnObject)
    else if key in result.fields then Success(result.fields[key])
    else Failure(MissingKey(key))
  }

  /** `new JSONArray(result.toString()).getJSONObject(0).getString("id")`. */
  function FirstHeadsetId(result: Reply): (r: Result<string, CortexFault>)
    ensures r.Success? <==> result.ArrayReply? && |result.items| > 0 && "id" in result.items[0]
    ensures r.Success? ==> r.value == result.items[0]["id"]
  {
    if !result.ArrayReply? then Failure(NotAnArray)
    else if |result.items| == 0 then Failure(NoHeadset)
    else if "id" in result.items[0] then Success(result.items[0]["id"])
    else Failure(MissingKey("id"))
  }

  // ---------------------------------------------------------------------------
  // The seven requests
  // ---------------------------------------------------------------------------

  function CortexInfoRequest(): Request
  {
    Request(1, "2.0", "getCortexInfo", None)
  }

  function RequestAccessRequest(clientId: Option<string>, clientSecret: Option<string>): Request
  {
    Request(2, "2.0", "requestAccess", Some(PutText(PutText(map[], "clientId", clientId), "clientSecret", clientSecret)))
  }

  function AuthorizeRequest(clientId: Option<string>, clientSecret: Option<string>): Request
  {
    Request(3, "2.0", "authorize",
      Some(PutText(PutText(map[], "clientId", clientId), "clientSecret", clientSecret)["debit" := Number(1)]))
  }

  function UserInformationRequest(cortexToken: string): Request
  {
    Request(4, "2.0", "getUserInformation", Some(map["cortexToken" := Text(cortexToken)]))
  }

  function QueryHeadsetsRequest(): Request
  {
    Request(5, "2.0", "queryHeadsets", None)
  }

  function CreateSessionRequest(cortexToken: string, headset: string): Request
  {
    Request(6, "2.0", "createSession",
      Some(map["cortexToken" := Text(cortexToken), "headset" := Text(headset), "status" := Text("active")]))
  }

  function SubscribeRequest(cortexToken: string, session: string): Request
  {
    Request(7, "2.0", "subscribe",
      Some(map["cortexToken" := Text(cortexToken), "session" := Text(session), "streams" := Texts(["met"])]))
  }

  /** Every request the delegate can send is a JSON-RPC 2.0 request numbered by its step. */
  lemma RequestsWellFormed(clientId: Option<string>, clientSecret: Option<string>, token: string, headset: string, session: string)
    ensures WellFormed(CortexInfoRequest()) && WellFormed(RequestAccessRequest(clientId, clientSecret))
    ensures WellFormed(AuthorizeRequest(clientId, clientSecret)) && WellFormed(UserInformationRequest(token))
    ensures WellFormed(QueryHeadsetsRequest()) && WellFormed(CreateSessionRequest(token, headset))
    ensures WellFormed(SubscribeRequest(token, session))
  {
  }

  /** The credentials go into `requestAccess` and `authorize` exactly when they are set. */
  lemma CredentialsSentWhenSet(clientId: Option<string>, clientSecret: Option<string>)
    ensures var p := RequestAccessRequest(clientId, clientSecret).params.value;
      ("clientId" in p <==> clientId.Some?) && ("clientSecret" in p <==> clientSecret.Some?) &&
      (clientId.Some? ==> p["clientId"] == Text(clientId.value)) &&
      (clientSecret.Some? ==> p["clientSecret"] == Text(clientSecret.value))
    ensures var p := AuthorizeRequest(clientId, clientSecret).params.value;
      ("clientId" in p <==> clientId.Some?) && ("clientSecret" in p <==> clientSecret.Some?) &&
      p["debit"] == Number(1)
  {
  }

  class LauncherDelegate {
    /** `CLIENT_ID` and `CLIENT_SECRET`, read from the environment; `None` when unset. */
    const clientId: Option<string>
    const clientSecret: Option<string>

    var subscribed: bool
    var cortexToken: Option<string>
    var firstName: Option<string>
    var lastName: Option<string>
    var userName: Option<string>
    var headset: Option<string>
    var session: Option<string>

    /** Every request sent on the web socket, oldest first. */
    var sent: seq<Request>

    /** Everything sent is a JSON-RPC 2.0 request numbered by its step. */
    predicate Valid()
      reads this
    {
      forall k :: 0 <= k < |sent| ==> WellFormed(sent[k])
    }

    constructor (clientId: Option<string>, clientSecret: Option<string>)
      ensures this.clientId == clientId && this.clientSecret == clientSecret
      ensures !subscribed && cortexToken.None? && headset.None? && session.None?
      ensures firstName.None? && lastName.None? && userName.None?
      ensures sent == [] && Valid()
    {
      this.clientId := clientId;
      this.clientSecret := clientSecret;
      subscribed := false;
      cortexToken := None;
      firstName := None;
      lastName := None;
      userName := None;
      headset := None;
      session := None;
      sent := [];
    }

    /** `ws.send(message)`. */
    method Send(message: Request)
      requires Valid() && WellFormed(message)
      modifies this`sent
      ensures sent == old(sent) + [message] && Valid()
    {
      sent := sent + [message];
    }

    method GetCortexInfo()
      requires Valid()
      modifies this`sent
      ensures sent == old(sent) + [CortexInfoRequest()] && Valid()
    {
      Send(CortexInfoRequest());
    }

    method RequestAccess()
      requires Valid()
      modifies this`sent
      ensures sent == old(sent) + [RequestAccessRequest(clientId, clientSecret)] && Valid()
    {
      Send(RequestAccessRequest(clientId, clientSecret));
    }

    method Authorize()
      requires Valid()
      modifies this`sent
      ensures sent == old(sent) + [AuthorizeRequest(clientId, clientSecret)] && Valid()
    {
      Send(AuthorizeRequest(clientId, clientSecret));
    }

    /** Sent only when a token is held. */
    method GetUserInformation()
      requires Valid()
      modifies this`sent
      ensures sent == if cortexToken.Some? then old(sent) + [UserInformationRequest(cortexToken.value)] else old(sent)
      ensures Valid()
    {
      if cortexToken.Some? {
        Send(UserInformationRequest(cortexToken.value));
      }
    }

    method QueryHeadsets()
      requires Valid()
      modifies this`sent
      ensures sent == old(sent) + [QueryHeadsetsRequest()] && Valid()
    {
      Send(QueryHeadsetsRequest());
    }

    /** Sent only when both a token and a headset are held. */
    method CreateSession()
      requires Valid()
      modifies this`sent
      ensures sent == if cortexToken.Some? && headset.Some? then old(sent) + [CreateSessionRequest(cortexToken.value, headset.value)] else old(sent)
      ensures Valid()
    {
      if cortexToken.Some? && headset.Some? {
        Send(CreateSessionRequest(cortexToken.value, headset.value));
      }
    }

    /** Sent only when both a token and a session are held. */
    method Subscribe()
      requires Valid()
      modifies this`sent
      ensures sent == if cortexToken.Some? && session.Some? then old(sent) + [SubscribeRequest(cortexToken.value, session.value)] else old(sent)
      ensures Valid()
    {
      if cortexToken.Some? && session.Some? {
        Send(SubscribeRequest(cortexToken.value, session.value));
      }
    }

    /** The fields that `handle` may change. */
    twostate predicate KeepsAllBut(token: bool, names: bool, headsetChanged: bool, sessionChanged: bool, subscribedChanged: bool)
      reads this
    {
      (!token ==> cortexToken == old(cortexToken)) &&
      (!names ==> firstName == old(firstName) && lastName == old(lastName) && userName == old(userName)) &&
      (!headsetChanged ==> headset == old(headset)) &&
      (!sessionChanged ==> session == old(session)) &&
      (!subscribedChanged ==> subscribed == old(subscribed))
    }

    /** Step 3: the token is stored and `getUserInformation` sent, or the reply lacks it. */
    twostate predicate TokenStored(result: Reply, new fault: Option<CortexFault>)
      reads this
    {
      match GetString(result, "cortexToken")
      case Failure(f) => fault == Some(f) && sent == old(sent) && cortexToken == old(cortexToken)
      case Success(t) => fault.None? && cortexToken == Some(t) && sent == old(sent) + [UserInformationRequest(t)]
    }

    /** Step 4: the three names are stored in order and `queryHeadsets` sent; a missing
        name throws after the names before it were stored. */
    twostate predicate NamesStored(result: Reply, new fault: Option<CortexFault>)
      reads this
    {
      var first, last, user := GetString(result, "firstName"), GetString(result, "lastName"), GetString(result, "username");
      (first.Failure? ==> fault == Some(first.error) && firstName == old(firstName)) &&
      (first.Success? ==> firstName == Some(first.value)) &&
      (first.Failure? || last.Failure? ==> lastName == old(lastName)) &&
      (first.Success? && last.Failure? ==> fault == Some(last.error)) &&
      (first.Success? && last.Success? ==> lastName == Some(last.value)) &&
      (first.Failure? || last.Failure? || user.Failure? ==> userName == old(userName) && sent == old(sent)) &&
      (first.Success? && last.Success? && user.Failure? ==> fault == Some(user.error)) &&
      (first.Success? && last.Success? && user.Success? ==>
         fault.None? && userName == Some(user.value) && sent == old(sent) + [QueryHeadsetsRequest()])
    }

    /** Step 5: the first headset's id is stored and `createSession` sent when a token
        is held. */
    twostate predicate HeadsetStored(result: Reply, new fault: Option<CortexFault>)
      reads this
    {
      match FirstHeadsetId(result)
      case Failure(f) => fault == Some(f) && sent == old(sent) && headset == old(headset)
      case Success(h) =>
        fault.None? && headset == Some(h) &&
        sent == old(sent) + (if cortexToken.Some? then [CreateSessionRequest(cortexToken.value, h)] else [])
    }

    /** Step 6: the session id is stored and `subscribe` sent when a token is held. */
    twostate predicate SessionStored(result: Reply, new fault: Option<CortexFault>)
      reads this
    {
      match GetString(result, "id")
      case Failure(f) => fault == Some(f) && sent == old(sent) && session == old(session)
      case Success(id) =>
        fault.None? && session == Some(id) &&
        sent == old(sent) + (if cortexToken.Some? then [SubscribeRequest(cortexToken.value, id)] else [])
    }

    /** `handle(id, result, ws)`: the reply to step `id` stores what it carries and sends
        the next step's request; `fault` is the `JSONException` that a reply without the
        expected member throws, after which nothing more is stored or sent. */
    method Handle(id: int, result: Reply) returns (fault: Option<CortexFault>)
      requires Valid()
      modifies this`sent, this`cortexToken, this`firstName, this`lastName, this`userName
      modifies this`headset, this`session, this`subscribed
      ensures Valid()
      ensures old(subscribed) ==> subscribed
      ensures (id < 0 || id > 7) ==> fault.None? && sent == old(sent) && KeepsAllBut(false, false, false, false, false)
      ensures id == 0 ==> fault.None? && sent == old(sent) + [CortexInfoRequest()] && KeepsAllBut(false, false, false, false, false)
      ensures id == 1 ==> fault.None? && sent == old(sent) + [RequestAccessRequest(clientId, clientSecret)] && KeepsAllBut(false, false, false, false, false)
      ensures id == 2 ==> fault.None? && sent == old(sent) + [AuthorizeRequest(clientId, clientSecret)] && KeepsAllBut(false, false, false, false, false)
      ensures id == 3 ==> KeepsAllBut(true, false, false, false, false) && TokenStored(result, fault)
      ensures id == 4 ==> KeepsAllBut(false, true, false, false, false) && NamesStored(result, fault)
      ensures id == 5 ==> KeepsAllBut(false, false, true, false, false) && HeadsetStored(result, fault)
      ensures id == 6 ==> KeepsAllBut(false, false, false, true, false) && SessionStored(result, fault)
      ensures id == 7 ==> fault.None? && subscribed && sent == old(sent) && KeepsAllBut(false, false, false, false, true)
    {
      fault := None;
      if id == 0 {
        GetCortexInfo();
      } else if id == 1 {
        RequestAccess();
      } else if id == 2 {
        Authorize();
      } else if id == 3 {
        var token := GetString(result, "cortexToken");
        if token.Failure? {
          return Some(token.error);
        }
        cortexToken := Some(token.value);
        GetUserInformation();
      } else if id == 4 {
        var first := GetString(result, "firstName");
        if first.Failure? {
          return Some(first.error);
        }
        firstName := Some(first.value);
        var last := GetString(result, "lastName");
        if last.Failure? {
          return Some(last.error);
        }
        lastName := Some(last.value);
        var user := GetString(result, "username");
        if user.Failure? {
          return Some(user.error);
        }
        userName := Some(user.value);
        QueryHeadsets();
      } else if id == 5 {
        var first := FirstHeadsetId(result);
        if first.Failure? {
          return Some(first.error);
        }
        headset := Some(first.value);
        CreateSession();
      } else if id == 6 {
        var created := GetString(result, "id");
        if created.Failure? {
          return Some(created.error);
        }
        session := Some(created.value);
        Subscribe();
      } else if id == 7 {
        subscribed := true;
      }
    }
  }
}
