/**
 * Topics of the ThingsBoard protocol: what the client prints into its request topics and payloads,
 * and how it routes an incoming topic to a message class and its numbers.
 */
module Topics {
  import opened Basics
  import opened Sequences
  import opened Numerals

  const ATTRIBUTES_REQUEST_PREFIX := "v1/devices/me/attributes/request/"
  const ATTRIBUTES_RESPONSE_PREFIX := "v1/devices/me/attributes/response/"
  const SHARED_ATTRIBUTES := "v1/devices/me/attributes"
  const SERVERRPC_REQUEST_PREFIX := "v1/devices/me/rpc/request/"
  const CLIENTRPC_REQUEST_PREFIX := "v1/devices/me/rpc/request/"
  const CLIENTRPC_RESPONSE_PREFIX := "v1/devices/me/rpc/response/"
  const PROVISION_RESPONSE := "/provision/response"
  const FW_REQUEST_PREFIX := "v2/fw/request/"
  const FW_RESPONSE_PREFIX := "v2/fw/response/"
  const CHUNK := "/chunk/"

  /** The text FW_REQUEST_PATTERN of the source, whose length sizes the topic buffer. */
  const FW_REQUEST_PATTERN := "v2/fw/request/%u/chunk/%u"

  /** snprintf(buffer, size, ...) keeps at most size - 1 characters of the text. */
  function Snprintf(size: nat, text: string): (r: string)
    requires size > 0
    ensures r <= text
    ensures |text| < size ==> r == text
  {
    if |text| < size then text else text[..size - 1]
  }

  // ---- Requests --------------------------------------------------------------------------------

  function AttributesRequestTopic(id: nat): string {
    Snprintf(|ATTRIBUTES_REQUEST_PREFIX| + 20 - 1, ATTRIBUTES_REQUEST_PREFIX + Print(id, 10))
  }

  function ClientRpcRequestTopic(id: nat): string {
    Snprintf(|CLIENTRPC_REQUEST_PREFIX| + 20 - 1, CLIENTRPC_REQUEST_PREFIX + Print(id, 10))
  }

  function FwRequestTopic(id: nat, chunk: nat): string {
    Snprintf(|FW_REQUEST_PATTERN| + 20 - 1, FW_REQUEST_PREFIX + Print(id, 10) + CHUNK + Print(chunk, 10))
  }

  /** The payload of an attributes request; None when there is no key to ask for. */
  function AttributesRequestPayload(clientKeys: string, sharedKeys: string): Option<string> {
    var room := |"clientKeys"| + |clientKeys| + |"sharedKeys"| + |sharedKeys| + 20 - 1;
    if clientKeys == "" && sharedKeys == "" then None
    else if clientKeys != "" && sharedKeys != "" then
      Some(Snprintf(room, CLIENT_KEYS + clientKeys + AND_SHARED_KEYS + sharedKeys + END_KEYS))
    else if clientKeys != "" then Some(Snprintf(room, CLIENT_KEYS + clientKeys + END_KEYS))
    else Some(Snprintf(room, SHARED_KEYS + sharedKeys + END_KEYS))
  }

  const CLIENT_KEYS := "{\"clientKeys\":\""
  const SHARED_KEYS := "{\"sharedKeys\":\""
  const AND_SHARED_KEYS := "\", \"sharedKeys\":\""
  const END_KEYS := "\"}"

  function ClientRpcPayload(rpcMethod: string, params: string): string {
    Snprintf(|"method"| + |rpcMethod| + |"params"| + |params| + 20 - 1, METHOD + rpcMethod + PARAMS + params + "}")
  }

  const METHOD := "{\"method\":\""
  const PARAMS := "\",\"params\":"

  /** No request topic is cut short by its buffer. */
  lemma TopicsAreNotTruncated(id: nat, chunk: nat)
    requires id < UINT32 && chunk < UINT32
    ensures AttributesRequestTopic(id) == "v1/devices/me/attributes/request/" + Print(id, 10)
    ensures ClientRpcRequestTopic(id) == "v1/devices/me/rpc/request/" + Print(id, 10)
    ensures FwRequestTopic(id, chunk) == "v2/fw/request/" + Print(id, 10) + "/chunk/" + Print(chunk, 10)
  {
    hide Print;
    PrintFitsTen(id);
    PrintFitsTen(chunk);
  }

  /** No request payload is cut short by its buffer: every payload still carries all its keys and its closing brace. */
  lemma PayloadsAreNotTruncated(clientKeys: string, sharedKeys: string, rpcMethod: string, params: string)
    ensures ClientRpcPayload(rpcMethod, params) == "{\"method\":\"" + rpcMethod + "\",\"params\":" + params + "}"
    ensures AttributesRequestPayload(clientKeys, sharedKeys) ==
            if clientKeys == "" && sharedKeys == "" then None
            else if sharedKeys == "" then Some("{\"clientKeys\":\"" + clientKeys + "\"}")
            else if clientKeys == "" then Some("{\"sharedKeys\":\"" + sharedKeys + "\"}")
            else Some("{\"clientKeys\":\"" + clientKeys + "\", \"sharedKeys\":\"" + sharedKeys + "\"}")
  {}

  // ---- Routing ---------------------------------------------------------------------------------

  datatype Incoming =
    | AttributesResponse(id: nat)
    | SharedAttributes
    | ServerRpcRequest(id: nat)
    | ClientRpcResponse(id: nat)
    | FwResponse(id: nat, chunk: nat)
    | ProvisionResponse
    | Unknown

  /** strstr: the first place where the pattern occurs. */
  function Find(s: string, pattern: string): (r: Option<nat>)
    ensures r.Some? ==> OccursAt(s, pattern, r.value)
    ensures forall k :: 0 <= k < (if r.Some? then r.value else |s| + 1) ==> !OccursAt(s, pattern, k)
  {
    if pattern <= s then assert s[0..] == s; Some(0)
    else if s == "" then None
    else
      var r := Find(s[1..], pattern);
      assert forall k :: 1 <= k <= |s| ==> s[k..] == s[1..][k - 1..];
      assert forall k :: 1 <= k <= |s| ==> (OccursAt(s, pattern, k) <==> OccursAt(s[1..], pattern, k - 1));
      assert s[0..] == s;
      if r.Some? then Some(r.value + 1) else None
  }

  predicate OccursAt(s: string, pattern: string, k: nat) {
    k <= |s| && pattern <= s[k..]
  }

  function Route(topic: string): Incoming {
    if ATTRIBUTES_RESPONSE_PREFIX <= topic then
      AttributesResponse(Scan(topic[|ATTRIBUTES_RESPONSE_PREFIX|..], 10))
    else if SHARED_ATTRIBUTES <= topic then SharedAttributes
    else if SERVERRPC_REQUEST_PREFIX <= topic then
      ServerRpcRequest(Scan(topic[|SERVERRPC_REQUEST_PREFIX|..], 10))
    else if CLIENTRPC_RESPONSE_PREFIX <= topic then
      ClientRpcResponse(Scan(topic[|CLIENTRPC_RESPONSE_PREFIX|..], 10))
    else if FW_RESPONSE_PREFIX <= topic then
      FwResponse(Scan(topic[|FW_RESPONSE_PREFIX|..], 10), ScanChunk(topic))
    else if PROVISION_RESPONSE <= topic then ProvisionResponse
    else Unknown
  }

  /** The chunk number is scanned behind the first "/chunk/"; without one it stays 0. */
  function ScanChunk(topic: string): nat {
    var at := Find(topic, CHUNK);
    if at.Some? then
      assert OccursAt(topic, CHUNK, at.value);
      Scan(topic[at.value + |CHUNK|..], 10)
    else 0
  }

  /** The topic on which the server answers firmware request id for a chunk. */
  function FwResponseTopic(id: nat, chunk: nat): string {
    FW_RESPONSE_PREFIX + Print(id, 10) + CHUNK + Print(chunk, 10)
  }

  lemma PrefixOfAppend(prefix: string, tail: string)
    ensures prefix <= prefix + tail && (prefix + tail)[|prefix|..] == tail
  {}

  /** A prefix that disagrees with the topic at one of its first characters does not match. */
  lemma DisagreesAt(prefix: string, topic: string, k: nat)
    requires k < |prefix| && k < |topic| && prefix[k] != topic[k]
    ensures !(prefix <= topic)
  {}

  lemma ScanNumber(prefix: string, id: nat, rest: string)
    requires id < UINT32
    requires rest != "" ==> rest[0] == '/'
    ensures prefix <= prefix + Print(id, 10) + rest
    ensures Scan((prefix + Print(id, 10) + rest)[|prefix|..], 10) == id
  {
    hide Print, Scan;
    assert prefix + Print(id, 10) + rest == prefix + (Print(id, 10) + rest);
    PrefixOfAppend(prefix, Print(id, 10) + rest);
    ScanPrinted(id, rest, 10);
  }

  lemma RouteAttributesResponse(id: nat)
    requires id < UINT32
    ensures Route("v1/devices/me/attributes/response/" + Print(id, 10)) == AttributesResponse(id)
  {
    hide Print, Scan;
    ScanNumber(ATTRIBUTES_RESPONSE_PREFIX, id, "");
    assert ATTRIBUTES_RESPONSE_PREFIX + Print(id, 10) + "" == ATTRIBUTES_RESPONSE_PREFIX + Print(id, 10);
  }

  lemma RouteServerRpcRequest(id: nat)
    requires id < UINT32
    ensures Route("v1/devices/me/rpc/request/" + Print(id, 10)) == ServerRpcRequest(id)
  {
    hide Print, Scan;
    var topic := SERVERRPC_REQUEST_PREFIX + Print(id, 10);
    ScanNumber(SERVERRPC_REQUEST_PREFIX, id, "");
    assert topic + "" == topic;
    DisagreesAt(ATTRIBUTES_RESPONSE_PREFIX, topic, 14);
    DisagreesAt(SHARED_ATTRIBUTES, topic, 14);
  }

  lemma RouteClientRpcResponse(id: nat)
    requires id < UINT32
    ensures Route("v1/devices/me/rpc/response/" + Print(id, 10)) == ClientRpcResponse(id)
  {
    hide Print, Scan;
    var topic := CLIENTRPC_RESPONSE_PREFIX + Print(id, 10);
    ScanNumber(CLIENTRPC_RESPONSE_PREFIX, id, "");
    assert topic + "" == topic;
    DisagreesAt(ATTRIBUTES_RESPONSE_PREFIX, topic, 14);
    DisagreesAt(SHARED_ATTRIBUTES, topic, 14);
    DisagreesAt(SERVERRPC_REQUEST_PREFIX, topic, 20);
  }

  lemma RoutePlainTopics()
    ensures Route("v1/devices/me/attributes") == SharedAttributes
    ensures Route("/provision/response") == ProvisionResponse
  {
    hide Scan, Find;
    DisagreesAt(ATTRIBUTES_RESPONSE_PREFIX, PROVISION_RESPONSE, 0);
    DisagreesAt(SHARED_ATTRIBUTES, PROVISION_RESPONSE, 0);
    DisagreesAt(SERVERRPC_REQUEST_PREFIX, PROVISION_RESPONSE, 0);
    DisagreesAt(CLIENTRPC_RESPONSE_PREFIX, PROVISION_RESPONSE, 0);
    DisagreesAt(FW_RESPONSE_PREFIX, PROVISION_RESPONSE, 0);
  }

  /** In the fixed part of a firmware answer a slash is never followed by the 'c' of "/chunk/". */
  lemma NoMarkInPrefix(k: nat)
    requires k < |FW_RESPONSE_PREFIX| && FW_RESPONSE_PREFIX[k] == '/'
    ensures k + 1 < |FW_RESPONSE_PREFIX| ==> FW_RESPONSE_PREFIX[k + 1] != 'c'
  {
    assert k == 2 || k == 5 || k == 14;
  }

  /** A mark that follows slash-free digits is the first one in the topic. */
  lemma FirstMark(prefix: string, digits: string, rest: string)
    requires digits != "" && forall c :: c in digits ==> c != '/' && c != 'c'
    requires forall k: nat :: k < |prefix| && prefix[k] == '/' && k + 1 < |prefix| ==> prefix[k + 1] != 'c'
    ensures Find(prefix + digits + CHUNK + rest, CHUNK) == Some(|prefix| + |digits|)
  {
    hide Find;
    var topic, at := prefix + digits + CHUNK + rest, |prefix| + |digits|;
    assert topic[at..] == CHUNK + rest;
    assert OccursAt(topic, CHUNK, at);
    forall k: nat | k < at ensures !OccursAt(topic, CHUNK, k) {
      var tail := topic[k..];
      assert tail[0] == topic[k] && tail[1] == topic[k + 1];
      if k >= |prefix| {
        assert topic[k] in digits;
        DisagreesAt(CHUNK, tail, 0);
      } else if topic[k] == '/' {
        assert topic[k + 1] != 'c' by { if k + 1 == |prefix| { assert topic[k + 1] in digits; } }
        DisagreesAt(CHUNK, tail, 1);
      } else {
        DisagreesAt(CHUNK, tail, 0);
      }
    }
  }

  /** Both numbers of a firmware answer come back, although "/chunk/" is searched from the start of the topic. */
  lemma RouteFwResponse(id: nat, chunk: nat)
    requires id < UINT32 && chunk < UINT32
    ensures FwResponseTopic(id, chunk) == "v2/fw/response/" + Print(id, 10) + "/chunk/" + Print(chunk, 10)
    ensures Route(FwResponseTopic(id, chunk)) == FwResponse(id, chunk)
  {
    hide Print, Scan, Find;
    var topic := FwResponseTopic(id, chunk);
    var mark := CHUNK + Print(chunk, 10);
    assert topic == FW_RESPONSE_PREFIX + Print(id, 10) + mark;
    ScanNumber(FW_RESPONSE_PREFIX, id, mark);
    DisagreesAt(ATTRIBUTES_RESPONSE_PREFIX, topic, 1);
    DisagreesAt(SHARED_ATTRIBUTES, topic, 1);
    DisagreesAt(SERVERRPC_REQUEST_PREFIX, topic, 1);
    DisagreesAt(CLIENTRPC_RESPONSE_PREFIX, topic, 1);
    ScanChunkOfResponse(id, chunk);
  }

  lemma ScanChunkOfResponse(id: nat, chunk: nat)
    requires id < UINT32 && chunk < UINT32
    ensures ScanChunk(FwResponseTopic(id, chunk)) == chunk
  {
    hide Print, Scan, Find;
    var digits := Print(id, 10);
    PrintMeansValue(id, 10);
    forall c | c in digits ensures c != 'c' { assert IsDigit(c, 10); }
    forall k: nat | k < |FW_RESPONSE_PREFIX| && FW_RESPONSE_PREFIX[k] == '/' { NoMarkInPrefix(k); }
    FirstMark(FW_RESPONSE_PREFIX, digits, Print(chunk, 10));
    var before := FW_RESPONSE_PREFIX + digits + CHUNK;
    ScanNumber(before, chunk, "");
    assert before + Print(chunk, 10) + "" == FwResponseTopic(id, chunk);
  }

  /** Whatever follows the plain topics, they are routed by their beginning; any other topic is unknown. */
  lemma RouteByBeginning(topic: string)
    ensures "v1/devices/me/attributes" <= topic && !("v1/devices/me/attributes/response/" <= topic) ==>
              Route(topic) == SharedAttributes
    ensures "/provision/response" <= topic ==> Route(topic) == ProvisionResponse
    ensures (&& !("v1/devices/me/attributes" <= topic) && !("v1/devices/me/rpc/request/" <= topic)
             && !("v1/devices/me/rpc/response/" <= topic) && !("v2/fw/response/" <= topic)
             && !("/provision/response" <= topic)) ==> Route(topic) == Unknown
  {
    hide Scan, Find, ScanChunk;
    if "/provision/response" <= topic {
      assert topic[1] == 'p';
      DisagreesAt(ATTRIBUTES_RESPONSE_PREFIX, topic, 1);
      DisagreesAt(SHARED_ATTRIBUTES, topic, 1);
      DisagreesAt(SERVERRPC_REQUEST_PREFIX, topic, 1);
      DisagreesAt(CLIENTRPC_RESPONSE_PREFIX, topic, 1);
      DisagreesAt(FW_RESPONSE_PREFIX, topic, 1);
    }
    assert SHARED_ATTRIBUTES <= ATTRIBUTES_RESPONSE_PREFIX;
  }

  /** A firmware answer without a chunk number counts as chunk 0. */
  lemma RouteFwWithoutChunk(id: nat)
    requires id < UINT32
    ensures Route("v2/fw/response/" + Print(id, 10)) == FwResponse(id, 0)
  {
    hide Print, Scan, Find;
    var topic := "v2/fw/response/" + Print(id, 10);
    ScanNumber(FW_RESPONSE_PREFIX, id, "");
    assert topic + "" == topic;
    DisagreesAt(ATTRIBUTES_RESPONSE_PREFIX, topic, 1);
    DisagreesAt(SHARED_ATTRIBUTES, topic, 1);
    DisagreesAt(SERVERRPC_REQUEST_PREFIX, topic, 1);
    DisagreesAt(CLIENTRPC_RESPONSE_PREFIX, topic, 1);
    NoMark(id);
  }

  lemma NoMark(id: nat)
    ensures Find("v2/fw/response/" + Print(id, 10), CHUNK) == None
  {
    hide Print, Find;
    var topic := "v2/fw/response/" + Print(id, 10);
    PrintMeansValue(id, 10);
    forall k: nat | k <= |topic| ensures !OccursAt(topic, CHUNK, k) {
      var tail := topic[k..];
      if |tail| >= 7 {
        assert tail[0] == topic[k] && tail[1] == topic[k + 1];
        if k >= 15 {
          assert topic[k] in Print(id, 10);
        } else if topic[k] == '/' {
          assert topic[k + 1] != 'c' by {
            if k == 14 { assert topic[k + 1] in Print(id, 10); assert IsDigit(topic[k + 1], 10); }
          }
          DisagreesAt(CHUNK, tail, 1);
        } else {
          DisagreesAt(CHUNK, tail, 0);
        }
      }
    }
  }

  /**
   * The shared-attributes topic is a prefix of every attribute response, so the order of the tests matters:
   * a router that asked for the shared attributes first would misroute every attribute response.
   */
  lemma SharedTopicIsAmbiguous(tail: string)
    ensures "v1/devices/me/attributes" <= "v1/devices/me/attributes/response/" + tail
    ensures Route("v1/devices/me/attributes/response/" + tail).AttributesResponse?
  {
    hide Scan, Find;
    PrefixOfAppend(ATTRIBUTES_RESPONSE_PREFIX, tail);
    assert SHARED_ATTRIBUTES == ATTRIBUTES_RESPONSE_PREFIX[..|SHARED_ATTRIBUTES|];
  }
}
