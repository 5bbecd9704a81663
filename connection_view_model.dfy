/**
 * `ConnectionViewModel`: the secure-channel screen's view-model. It opens a
 * secure connection to one endpoint as soon as it is created, and then
 * registers, subscribes, writes and disconnects over that connection. The
 * messages read and written so far are kept in `subscribeList`, each tagged
 * with its direction.
 */
module ConnectionViewModels {
  import opened Sdk

  /**
   * `ConnectionEvent`. The Kotlin classes keep only their label: `Connect`
   * builds it from the endpoint id, `Write` from nothing (the message it is
   * given is not stored).
   */
  datatype ConnectionEvent = Connect(endpointId: string) | Register | Write | Subscribe | Disconnect

  /** The `message` label of each event. */
  function EventMessage(event: ConnectionEvent): (m: string)
    ensures event.Connect? ==> m == "Connect " + event.endpointId
    ensures event == Register <==> m == "Register"
    ensures event == Write <==> m == "Write"
    ensures event == Subscribe <==> m == "Subscribe"
    ensures event == Disconnect <==> m == "Disconnect"
  {
    if event.Connect? then
      assert ("Connect " + event.endpointId)[0] == 'C';
      "Connect " + event.endpointId
    else
      match event
      case Register => "Register"
      case Write => "Write"
      case Subscribe => "Subscribe"
      case Disconnect => "Disconnect"
  }

  /** The direction a message in the list travelled. */
  datatype MessageType = ReadType | WriteType

  /** The `type` label of a direction. */
  function TypeName(t: MessageType): (name: string)
    ensures t == ReadType <==> name == "Read"
    ensures t == WriteType <==> name == "Write"
  {
    match t
    case ReadType => "Read"
    case WriteType => "Write"
  }

  datatype Entry = Entry(message: Message, messageType: MessageType)

  datatype ConnectionUiState =
    | Idle
    | Loading(event: ConnectionEvent)
    | Connected(connection: Connection)
    | Registered(wirelessDeviceId: string, sidewalkId: string)
    | Written(messages: seq<Entry>)
    | Read(messages: seq<Entry>)
    | Disconnected
    | Failure(event: ConnectionEvent, exception: Option<Exception>)

  /** The entries a subscription appends: every message received, tagged `Read`, in order. */
  function Received(results: seq<SdkResult<Message>>): (entries: seq<Entry>)
    ensures |entries| <= |results|
    decreases |results|
  {
    if results == [] then []
    else
      var init, r := results[..|results| - 1], results[|results| - 1];
      if r.Success? then Received(init) + [Entry(r.value, ReadType)] else Received(init)
  }

  /** A subscription's entries are exactly the received messages, all tagged `Read`. */
  lemma {:induction false} ReceivedEntries(results: seq<SdkResult<Message>>)
    ensures forall e :: e in Received(results) ==> e.messageType == ReadType
    ensures forall m :: Entry(m, ReadType) in Received(results) <==> Success(m) in results
    decreases |results|
  {
    if results != [] {
      var init, r := results[..|results| - 1], results[|results| - 1];
      ReceivedEntries(init);
      assert results == init + [r];
    }
  }

  /** The state published for one subscription result, given the list so far. */
  function SubscribeOutcome(result: SdkResult<Message>, list: seq<Entry>): ConnectionUiState {
    match result
    case Success(_) => Read(list)
    case Failure(e) => ConnectionUiState.Failure(Subscribe, e)
  }

  /** The states a subscription publishes, one per result and nothing before them. */
  function SubscribeTrace(results: seq<SdkResult<Message>>): (trace: seq<ConnectionUiState>)
    ensures |trace| == |results|
    decreases |results|
  {
    if results == [] then []
    else
      var init, r := results[..|results| - 1], results[|results| - 1];
      SubscribeTrace(init) + [SubscribeOutcome(r, Received(results))]
  }

  /**
   * The i-th state a subscription publishes: a received message is appended
   * at the end, tagged `Read`, and the whole list is published; a failure
   * publishes `Failure(Subscribe, e)` and leaves the list as it was.
   */
  lemma {:induction false} SubscribeTraceAt(results: seq<SdkResult<Message>>, i: nat)
    requires i < |results|
    ensures results[i].Success? ==>
      Received(results[..i + 1]) == Received(results[..i]) + [Entry(results[i].value, ReadType)] &&
      SubscribeTrace(results)[i] == Read(Received(results[..i + 1]))
    ensures results[i].Failure? ==>
      Received(results[..i + 1]) == Received(results[..i]) &&
      SubscribeTrace(results)[i] == ConnectionUiState.Failure(Subscribe, results[i].exception)
    decreases |results|
  {
    var init := results[..|results| - 1];
    assert results[..i + 1][..i] == results[..i];
    if i < |results| - 1 {
      SubscribeTraceAt(init, i);
      assert init[..i + 1] == results[..i + 1] && init[..i] == results[..i];
    } else {
      assert results[..i + 1] == results;
    }
  }

  /** The state published for one registration result: failures are reported under `Subscribe`. */
  function RegisterOutcome(result: SdkResult<Registration>): (state: ConnectionUiState)
    ensures result.Success? ==>
      state == Registered(result.value.wirelessDeviceId, result.value.sidewalkId)
    ensures result.Failure? ==> state == ConnectionUiState.Failure(Subscribe, result.exception)
    ensures state.Failure? ==> state.event != Register
  {
    match result
    case Success(reg) => Registered(reg.wirelessDeviceId, reg.sidewalkId)
    case Failure(e) => ConnectionUiState.Failure(Subscribe, e)
  }

  /** The states a registration publishes after its `Loading(Register)`. */
  function RegisterTrace(results: seq<SdkResult<Registration>>): (trace: seq<ConnectionUiState>)
    ensures |trace| == |results|
    ensures forall i :: 0 <= i < |results| ==> trace[i] == RegisterOutcome(results[i])
    decreases |results|
  {
    if results == [] then []
    else RegisterTrace(results[..|results| - 1]) + [RegisterOutcome(results[|results| - 1])]
  }

  class ConnectionViewModel {
    var uiState: ConnectionUiState
    ghost var emitted: seq<ConnectionUiState>
    /** The endpoint id the descriptor filters on. */
    const endpointId: string
    /** `sidewalkConnection`, a `lateinit` property: `None` until a connect succeeds. */
    var connection: Option<Connection>
    var subscribeList: seq<Entry>

    ghost predicate Valid()
      reads this
    {
      |emitted| > 0 && uiState == emitted[|emitted| - 1]
    }

    /**
     * Creation: the state starts `Idle` and the connect is launched at once;
     * `connectResult` is what the SDK's secure connect returns.
     */
    constructor (endpointId: string, connectResult: SdkResult<Connection>)
      ensures Valid()
      ensures this.endpointId == endpointId
      ensures emitted == [Idle, Loading(Connect(endpointId)),
        if connectResult.Success? then Connected(connectResult.value)
        else ConnectionUiState.Failure(Connect(endpointId), connectResult.exception)]
      ensures connection == (if connectResult.Success? then Some(connectResult.value) else None)
      ensures subscribeList == []
    {
      this.endpointId := endpointId;
      uiState := Idle;
      emitted := [Idle];
      connection := None;
      subscribeList := [];
      new;
      EstablishSecureConnect(connectResult);
    }

    /** `_uiState.update { state }`. */
    method Publish(state: ConnectionUiState)
      modifies this`uiState, this`emitted
      ensures uiState == state && emitted == old(emitted) + [state]
    {
      uiState := state;
      emitted := emitted + [state];
    }

    /**
     * `establishSecureConnect`: publish `Loading(Connect(id))`, then either
     * store the connection and publish `Connected`, or publish the failure.
     */
    method EstablishSecureConnect(result: SdkResult<Connection>)
      requires Valid()
      modifies this
      ensures Valid()
      ensures result.Success? ==>
        connection == Some(result.value) &&
        emitted == old(emitted) + [Loading(Connect(endpointId)), Connected(result.value)]
      ensures result.Failure? ==>
        connection == old(connection) &&
        emitted == old(emitted) + [Loading(Connect(endpointId)),
          ConnectionUiState.Failure(Connect(endpointId), result.exception)]
      ensures subscribeList == old(subscribeList)
    {
      Publish(Loading(Connect(endpointId)));
      var newUiState: ConnectionUiState;
      match result {
        case Success(c) =>
          connection := Some(c);
          newUiState := Connected(c);
        case Failure(e) =>
          newUiState := ConnectionUiState.Failure(Connect(endpointId), e);
      }
      Publish(newUiState);
    }

    /**
     * `disconnectSecureChannel`: publish `Loading(Disconnect)`; on success
     * clear the message list and publish `Disconnected`, otherwise keep the
     * list and publish the failure.
     */
    method DisconnectSecureChannel(result: SdkResult<()>)
      requires Valid() && connection.Some?
      modifies this
      ensures Valid()
      ensures result.Success? ==>
        subscribeList == [] && emitted == old(emitted) + [Loading(Disconnect), Disconnected]
      ensures result.Failure? ==>
        subscribeList == old(subscribeList) &&
        emitted == old(emitted) + [Loading(Disconnect), ConnectionUiState.Failure(Disconnect, result.exception)]
      ensures connection == old(connection)
    {
      Publish(Loading(Disconnect));
      var newUiState: ConnectionUiState;
      match result {
        case Success(_) =>
          subscribeList := [];
          newUiState := Disconnected;
        case Failure(e) =>
          newUiState := ConnectionUiState.Failure(Disconnect, e);
      }
      Publish(newUiState);
    }

    /**
     * `register`: publish `Loading(Register)`, then one state per result of
     * the SDK's registration flow.
     */
    method Register(results: seq<SdkResult<Registration>>)
      requires Valid() && connection.Some?
      modifies this
      ensures Valid()
      ensures emitted == old(emitted) + [Loading(ConnectionEvent.Register)] + RegisterTrace(results)
      ensures connection == old(connection) && subscribeList == old(subscribeList)
    {
      Publish(Loading(ConnectionEvent.Register));
      ghost var before := emitted;
      for i := 0 to |results|
        invariant Valid()
        invariant emitted == before + RegisterTrace(results[..i])
        invariant connection == old(connection) && subscribeList == old(subscribeList)
      {
        var prefix := results[..i + 1];
        assert prefix[..i] == results[..i] && prefix[i] == results[i];
        var newUiState: ConnectionUiState;
        match results[i] {
          case Success(reg) =>
            newUiState := Registered(reg.wirelessDeviceId, reg.sidewalkId);
          case Failure(e) =>
            newUiState := ConnectionUiState.Failure(ConnectionEvent.Subscribe, e);
        }
        Publish(newUiState);
      }
      assert results[..|results|] == results;
    }

    /**
     * `subscribe`: empty the message list, then, per result of the SDK's
     * flow, append the received message tagged `Read` and publish the list,
     * or publish the failure. No `Loading` state comes first.
     */
    method Subscribe(results: seq<SdkResult<Message>>)
      requires Valid() && connection.Some?
      modifies this
      ensures Valid()
      ensures subscribeList == Received(results)
      ensures emitted == old(emitted) + SubscribeTrace(results)
      ensures connection == old(connection)
    {
      subscribeList := [];
      ghost var before := emitted;
      for i := 0 to |results|
        invariant Valid()
        invariant subscribeList == Received(results[..i])
        invariant emitted == before + SubscribeTrace(results[..i])
        invariant connection == old(connection)
      {
        assert results[..i + 1][..i] == results[..i];
        assert SubscribeTrace(results[..i + 1])
          == SubscribeTrace(results[..i]) + [SubscribeOutcome(results[i], Received(results[..i + 1]))];
        var newUiState: ConnectionUiState;
        match results[i] {
          case Success(m) =>
            subscribeList := subscribeList + [Entry(m, ReadType)];
            newUiState := Read(subscribeList);
          case Failure(e) =>
            newUiState := ConnectionUiState.Failure(ConnectionEvent.Subscribe, e);
        }
        Publish(newUiState);
      }
      assert results[..|results|] == results;
    }

    /**
     * `write(message)`: on success append the message tagged `Write` at the
     * end of the list and publish the list; on failure keep the list and
     * publish `Failure(Write, e)`. No `Loading` state comes first.
     */
    method Write(message: Message, result: SdkResult<()>)
      requires Valid() && connection.Some?
      modifies this
      ensures Valid()
      ensures result.Success? ==>
        subscribeList == old(subscribeList) + [Entry(message, WriteType)] &&
        emitted == old(emitted) + [Written(subscribeList)]
      ensures result.Failure? ==>
        subscribeList == old(subscribeList) &&
        emitted == old(emitted) + [ConnectionUiState.Failure(ConnectionEvent.Write, result.exception)]
      ensures connection == old(connection)
    {
      var newUiState: ConnectionUiState;
      match result {
        case Success(_) =>
          subscribeList := subscribeList + [Entry(message, WriteType)];
          newUiState := Written(subscribeList);
        case Failure(e) =>
          newUiState := ConnectionUiState.Failure(ConnectionEvent.Write, e);
      }
      Publish(newUiState);
    }
  }

  /**
   * A subscription followed by writes: the list holds the received messages
   * in arrival order, tagged `Read`, and after them the written messages,
   * tagged `Write`. Nothing is ever removed except by a new subscription or
   * a successful disconnect.
   */
  method SubscribeThenWrite(vm: ConnectionViewModel, received: seq<SdkResult<Message>>, message: Message)
    requires vm.Valid() && vm.connection.Some?
    modifies vm
    ensures vm.subscribeList == Received(received) + [Entry(message, WriteType)]
    ensures vm.uiState == Written(vm.subscribeList)
    ensures forall i :: 0 <= i < |vm.subscribeList| - 1 ==> vm.subscribeList[i].messageType == ReadType
  {
    vm.Subscribe(received);
    vm.Write(message, Success(()));
    ReceivedEntries(received);
    forall i | 0 <= i < |vm.subscribeList| - 1
      ensures vm.subscribeList[i].messageType == ReadType
    {
      assert vm.subscribeList[i] == Received(received)[i];
      assert vm.subscribeList[i] in Received(received);
    }
  }
}
