/** QHTTPOperation: runs one HTTP request on top of QRunLoopOperation. It
    judges the final status code and content type, latches the last request
    and response across redirects, and on the first data chunk decides once
    whether the body goes to memory (bounded by a maximum size) or to an
    output stream. */
module HTTPOperation {
  import opened Foundation
  import RunLoopOperation

  // Negative codes of kQHTTPOperationErrorDomain; positive codes are HTTP
  // status codes that the acceptable set refused, and 0 is never used.
  const ErrorResponseTooLarge: int := -1
  const ErrorOnOutputStream: int := -2
  const ErrorBadContentType: int := -3

  /** A code that may appear in the module's error domain. */
  predicate IsModuleErrorCode(code: int) {
    code >= 100 || code == ErrorResponseTooLarge || code == ErrorOnOutputStream || code == ErrorBadContentType
  }

  /** Response buffer sizes: 1 MB default and 4 MB maximum, a quarter of
      each on embedded devices. */
  const DefaultResponseSize: nat := 1024 * 1024
  const MaximumResponseSize: nat := 4 * 1024 * 1024

  function DefaultSizes(onEmbeddedDevice: bool): (sizes: (nat, nat))
    ensures sizes.0 <= sizes.1
    ensures sizes.1 <= MaximumResponseSize
    ensures onEmbeddedDevice ==> sizes == (256 * 1024, 1024 * 1024)
    ensures !onEmbeddedDevice ==> sizes == (DefaultResponseSize, MaximumResponseSize)
  {
    if onEmbeddedDevice then (DefaultResponseSize / 4, MaximumResponseSize / 4)
    else (DefaultResponseSize, MaximumResponseSize)
  }

  /** The status codes accepted when `acceptableStatusCodes` is nil. */
  const DefaultAcceptableStatusCodes: set<int> := set code: int | 200 <= code < 300

  /** `isStatusCodeAcceptable` for a response with the given status code. */
  function StatusCodeAcceptable(acceptableStatusCodes: Option<set<int>>, statusCode: int): (ok: bool)
    ensures acceptableStatusCodes.None? ==> (ok <==> 200 <= statusCode <= 299)
    ensures acceptableStatusCodes.Some? ==> (ok <==> statusCode in acceptableStatusCodes.value)
  {
    statusCode in acceptableStatusCodes.GetOr(DefaultAcceptableStatusCodes)
  }

  /** `isContentTypeAcceptable` for a response with the given MIME type: nil
      acceptable types accept anything, otherwise the type must be listed. */
  function ContentTypeAcceptable(acceptableContentTypes: Option<set<string>>, mimeType: Option<string>): (ok: bool)
    ensures acceptableContentTypes.None? ==> ok
    ensures acceptableContentTypes.Some? && mimeType.None? ==> !ok
    ensures acceptableContentTypes.Some? && mimeType.Some? ==> (ok <==> mimeType.value in acceptableContentTypes.value)
  {
    match acceptableContentTypes
    case None => true
    case Some(types) => mimeType.Some? && mimeType.value in types
  }

  /** The error `connectionDidFinishLoading:` finishes with: none when the
      response is acceptable, its status code when the status is refused,
      BadContentType when only the content type is refused. */
  function LoadOutcome(acceptableStatusCodes: Option<set<int>>, acceptableContentTypes: Option<set<string>>,
                       response: HTTPURLResponse): (error: Option<NSError>)
    ensures error.None? <==>
      StatusCodeAcceptable(acceptableStatusCodes, response.statusCode)
      && ContentTypeAcceptable(acceptableContentTypes, response.mimeType)
    ensures !StatusCodeAcceptable(acceptableStatusCodes, response.statusCode) ==>
      error == Some(NSError(QHTTPOperationErrorDomain, response.statusCode))
    ensures (StatusCodeAcceptable(acceptableStatusCodes, response.statusCode)
             && !ContentTypeAcceptable(acceptableContentTypes, response.mimeType)) ==>
      error == Some(NSError(QHTTPOperationErrorDomain, ErrorBadContentType))
    ensures error.Some? ==>
      (error.value.domain == QHTTPOperationErrorDomain
       && IsModuleErrorCode(error.value.code) && error.value.code != 0)
  {
    if !StatusCodeAcceptable(acceptableStatusCodes, response.statusCode) then
      Some(NSError(QHTTPOperationErrorDomain, response.statusCode))
    else if !ContentTypeAcceptable(acceptableContentTypes, response.mimeType) then
      Some(NSError(QHTTPOperationErrorDomain, ErrorBadContentType))
    else
      None
  }

  /** All chunks, in the order they arrived. */
  function Flatten(chunks: seq<seq<Byte>>): seq<Byte> {
    if chunks == [] then [] else Flatten(chunks[..|chunks| - 1]) + chunks[|chunks| - 1]
  }

  /** One chunk into the memory buffer, or nil when it would pass the maximum. */
  function AppendChunk(accumulated: seq<Byte>, data: seq<Byte>, maximumResponseSize: nat): Option<seq<Byte>> {
    if |accumulated| + |data| <= maximumResponseSize then Some(accumulated + data) else None
  }

  /** The memory buffer after the chunks arrived one by one; nil once a chunk
      overflowed it. */
  function Accumulate(chunks: seq<seq<Byte>>, maximumResponseSize: nat): Option<seq<Byte>> {
    if chunks == [] then Some([])
    else
      match Accumulate(chunks[..|chunks| - 1], maximumResponseSize)
      case None => None
      case Some(accumulated) => AppendChunk(accumulated, chunks[|chunks| - 1], maximumResponseSize)
  }

  /** Chunk-by-chunk accumulation keeps exactly the whole body when it fits
      the maximum and overflows exactly when the whole body would not. */
  lemma {:induction false} AccumulateIsBoundedBody(chunks: seq<seq<Byte>>, maximumResponseSize: nat)
    ensures Accumulate(chunks, maximumResponseSize) ==
      if |Flatten(chunks)| <= maximumResponseSize then Some(Flatten(chunks)) else None
  {
    if chunks != [] {
      AccumulateIsBoundedBody(chunks[..|chunks| - 1], maximumResponseSize);
    }
  }

  /** The error a failed write to the output stream finishes with. The
      module has its own code for it, so the operation reports the failure
      in its own domain whatever the stream itself says. */
  const OutputStreamFailure: NSError := NSError(QHTTPOperationErrorDomain, ErrorOnOutputStream)

  /** A client's NSOutputStream, modelled by its destination: it takes bytes
      while `space` lasts; after that every write fails. */
  class OutputStream {
    var isOpen: bool
    var written: seq<Byte>
    var space: nat

    constructor (space: nat)
      ensures !isOpen && written == [] && this.space == space
    {
      isOpen := false;
      written := [];
      this.space := space;
    }

    method Open()
      modifies this`isOpen
      ensures isOpen
    {
      isOpen := true;
    }

    method Close()
      modifies this`isOpen
      ensures !isOpen
    {
      isOpen := false;
    }

    /** `write:maxLength:`: how many bytes were taken, or -1 on failure. */
    method Write(buffer: seq<Byte>) returns (bytesWritten: int)
      requires isOpen && |buffer| > 0
      modifies this`written, this`space
      ensures old(space) == 0 ==> bytesWritten == -1 && written == old(written) && space == 0
      ensures old(space) > 0 ==>
        (0 < bytesWritten <= |buffer|
         && written == old(written) + buffer[..bytesWritten]
         && space == old(space) - bytesWritten)
    {
      if space == 0 {
        bytesWritten := -1;
      } else {
        bytesWritten := if |buffer| <= space then |buffer| else space;
        written := written + buffer[..bytesWritten];
        space := space - bytesWritten;
      }
    }
  }

  /** Writes a chunk to the output stream synchronously, looping over partial
      writes, and stops at the first failed write. */
  method WriteAll(stream: OutputStream, data: seq<Byte>) returns (error: Option<NSError>)
    requires stream.isOpen
    modifies stream
    ensures stream.isOpen
    ensures error.None? <==> |data| <= old(stream.space)
    ensures error.None? ==> stream.written == old(stream.written) + data
    ensures error.Some? ==> error.value == OutputStreamFailure
  {
    var offset := 0;
    error := None;
    while offset < |data|
      invariant 0 <= offset <= |data|
      invariant stream.isOpen
      invariant stream.written == old(stream.written) + data[..offset]
      invariant stream.space + offset == old(stream.space)
      invariant error.None?
    {
      var bytesWritten := stream.Write(data[offset..]);
      if bytesWritten <= 0 {
        error := Some(OutputStreamFailure);
        break;
      }
      assert data[offset..][..bytesWritten] == data[offset..offset + bytesWritten];
      assert data[..offset] + data[offset..offset + bytesWritten] == data[..offset + bytesWritten];
      offset := offset + bytesWritten;
    }
    assert offset == |data| ==> data[..offset] == data;
  }

  /** A protection space a server challenges for (realm, host and method). */
  type ProtectionSpace = string

  /** The authentication delegate, by the protection spaces it handles. */
  datatype AuthenticationDelegate = AuthenticationDelegate(handledSpaces: set<ProtectionSpace>)

  /** What happens to an authentication challenge. */
  datatype ChallengeDisposition = RoutedToDelegate | ChallengeCancelled

  class HTTPOperation {
    const op: RunLoopOperation.Operation
    const request: URLRequest
    var acceptableStatusCodes: Option<set<int>>
    var acceptableContentTypes: Option<set<string>>
    var authenticationDelegate: Option<AuthenticationDelegate>
    var responseOutputStream: OutputStream?
    var defaultResponseSize: nat
    var maximumResponseSize: nat
    /** Whether the NSURLConnection is running. */
    var connection: bool
    var firstData: bool
    var dataAccumulator: Option<seq<Byte>>
    var lastRequest: Option<URLRequest>
    var lastResponse: Option<HTTPURLResponse>
    var responseBody: Option<seq<Byte>>
    /** Every chunk the connection delivered so far, in order. */
    ghost var received: seq<seq<Byte>>

    /** What holds at every step, also inside a callback just before it
        finishes the operation. */
    ghost predicate Core()
      reads this, op, responseOutputStream
    {
      && op.Valid()
      && (connection <==> op.state == RunLoopOperation.Executing)
      && (firstData <==> received == [])
      && (op.state == RunLoopOperation.Inited ==>
            firstData && lastRequest.None? && lastResponse.None? && dataAccumulator.None?)
      // the sink is decided by the first chunk and kept for the later ones
      && (dataAccumulator.Some? ==> !firstData && responseOutputStream == null)
      && (op.state == RunLoopOperation.Executing && !firstData ==>
            (dataAccumulator.Some? <==> responseOutputStream == null))
      && (op.state == RunLoopOperation.Executing && !firstData && responseOutputStream != null ==>
            responseOutputStream.isOpen)
      && (dataAccumulator.Some? ==> |dataAccumulator.value| <= maximumResponseSize)
      && (responseBody.Some? ==> responseOutputStream == null)
      && (op.error.Some? && op.error.value.domain == QHTTPOperationErrorDomain ==>
            IsModuleErrorCode(op.error.value.code))
    }

    ghost predicate Valid()
      reads this, op, responseOutputStream
    {
      && Core()
      // a memory body holds every chunk so far
      && (op.state == RunLoopOperation.Executing && dataAccumulator.Some? ==>
            dataAccumulator == Accumulate(received, maximumResponseSize))
      && (responseBody.Some? ==> op.state == RunLoopOperation.Finished)
    }

    /** `initWithRequest:`; `initWithURL:` passes a GET request for the URL. */
    constructor (request: URLRequest, onEmbeddedDevice: bool)
      ensures Valid() && fresh(op)
      ensures this.request == request && op.state == RunLoopOperation.Inited && !op.cancelled
      ensures op.runLoopThread.None? && op.runLoopModes.None?
      ensures acceptableStatusCodes.None? && acceptableContentTypes.None? && authenticationDelegate.None?
      ensures responseOutputStream == null
      ensures (defaultResponseSize, maximumResponseSize) == DefaultSizes(onEmbeddedDevice)
      ensures !connection && firstData && responseBody.None?
    {
      op := new RunLoopOperation.Operation();
      this.request := request;
      acceptableStatusCodes := None;
      acceptableContentTypes := None;
      authenticationDelegate := None;
      responseOutputStream := null;
      defaultResponseSize := DefaultSizes(onEmbeddedDevice).0;
      maximumResponseSize := DefaultSizes(onEmbeddedDevice).1;
      connection := false;
      firstData := true;
      dataAccumulator := None;
      lastRequest := None;
      lastResponse := None;
      responseBody := None;
      received := [];
    }

    /** Configured before queuing only. */
    method SetAcceptableStatusCodes(codes: Option<set<int>>)
      requires Valid() && op.state == RunLoopOperation.Inited
      modifies this`acceptableStatusCodes
      ensures Valid() && acceptableStatusCodes == codes
    {
      acceptableStatusCodes := codes;
    }

    /** Configured before queuing only. */
    method SetAcceptableContentTypes(types: Option<set<string>>)
      requires Valid() && op.state == RunLoopOperation.Inited
      modifies this`acceptableContentTypes
      ensures Valid() && acceptableContentTypes == types
    {
      acceptableContentTypes := types;
    }

    /** Configured before queuing only. */
    method SetAuthenticationDelegate(delegate: Option<AuthenticationDelegate>)
      requires Valid() && op.state == RunLoopOperation.Inited
      modifies this`authenticationDelegate
      ensures Valid() && authenticationDelegate == delegate
    {
      authenticationDelegate := delegate;
    }

    /** Configurable until the first data chunk arrives. */
    method SetResponseOutputStream(stream: OutputStream?)
      requires Valid() && firstData && op.state != RunLoopOperation.Finished
      modifies this`responseOutputStream
      ensures Valid() && responseOutputStream == stream
    {
      responseOutputStream := stream;
    }

    /** Configurable until the first data chunk arrives. */
    method SetResponseSizes(defaultSize: nat, maximumSize: nat)
      requires Valid() && firstData && op.state != RunLoopOperation.Finished
      modifies this`defaultResponseSize, this`maximumResponseSize
      ensures Valid() && defaultResponseSize == defaultSize && maximumResponseSize == maximumSize
    {
      defaultResponseSize := defaultSize;
      maximumResponseSize := maximumSize;
    }

    /** `start`; `operationDidStart` opens the connection unless the operation
        was cancelled before it started. */
    method Start()
      requires Valid() && op.state == RunLoopOperation.Inited
      modifies this`connection, op
      ensures Valid()
      ensures connection == !op.cancelled && op.cancelled == old(op.cancelled)
      ensures op.cancelled ==> op.state == RunLoopOperation.Finished && op.error == Some(RunLoopOperation.UserCancelledError())
      ensures op.runLoopThread == old(op.runLoopThread) && op.runLoopModes == old(op.runLoopModes)
    {
      var runDidStart := op.Start();
      if runDidStart {
        connection := true;
      }
    }

    /** `connection:canAuthenticateAgainstProtectionSpace:`: asks the
        delegate; without one, the answer is no. */
    function CanAuthenticateAgainstProtectionSpace(space: ProtectionSpace): (can: bool)
      reads this
      ensures authenticationDelegate.None? ==> !can
      ensures can ==> space in authenticationDelegate.value.handledSpaces
    {
      authenticationDelegate.Some? && space in authenticationDelegate.value.handledSpaces
    }

    /** `connection:didReceiveAuthenticationChallenge:`: routed to the
        delegate, or cancelled when there is none. */
    function DidReceiveAuthenticationChallenge(): (disposition: ChallengeDisposition)
      reads this
      ensures disposition == ChallengeCancelled <==> authenticationDelegate.None?
    {
      if authenticationDelegate.Some? then RoutedToDelegate else ChallengeCancelled
    }

    /** `connection:willSendRequest:redirectResponse:`: latches the request
        and the redirect response (nil for the first request) and lets the
        request go ahead unchanged. */
    method WillSendRequest(newRequest: URLRequest, redirectResponse: Option<HTTPURLResponse>) returns (sent: URLRequest)
      requires Valid() && connection
      modifies this`lastRequest, this`lastResponse
      ensures Valid()
      ensures sent == newRequest
      ensures lastRequest == Some(newRequest) && lastResponse == redirectResponse
    {
      lastRequest := Some(newRequest);
      lastResponse := redirectResponse;
      sent := newRequest;
    }

    /** `connection:didReceiveResponse:`: latches the response. */
    method DidReceiveResponse(response: HTTPURLResponse)
      requires Valid() && connection
      modifies this`lastResponse
      ensures Valid() && lastResponse == Some(response)
    {
      lastResponse := Some(response);
    }

    /** `connection:didReceiveData:`. The first chunk picks the destination:
        the output stream when one is set (and opens it), memory otherwise.
        Each chunk then goes to that destination; a memory body that would pass
        the maximum fails the operation with ResponseTooLarge, and a failed
        stream write fails it with OnOutputStream. */
    method DidReceiveData(data: seq<Byte>)
      requires Valid() && connection
      modifies this`firstData, this`dataAccumulator, this`received, this`connection, op, responseOutputStream
      ensures Valid()
      ensures received == old(received) + [data] && !firstData
      ensures op.state == RunLoopOperation.Executing || op.state == RunLoopOperation.Finished
      ensures responseOutputStream == null ==>
        if |Flatten(received)| <= maximumResponseSize then
          op.state == RunLoopOperation.Executing && dataAccumulator == Some(Flatten(received))
        else
          op.state == RunLoopOperation.Finished
          && op.error == Some(NSError(QHTTPOperationErrorDomain, ErrorResponseTooLarge))
      ensures responseOutputStream != null ==>
        dataAccumulator.None?
        && (op.state == RunLoopOperation.Executing <==> |data| <= old(responseOutputStream.space))
        && (op.state == RunLoopOperation.Executing ==>
              responseOutputStream.written == old(responseOutputStream.written) + data)
        && (op.state == RunLoopOperation.Finished ==>
              op.error == Some(OutputStreamFailure))
    {
      if firstData {
        if responseOutputStream == null {
          dataAccumulator := Some([]);
        } else {
          responseOutputStream.Open();
        }
        firstData := false;
      }
      received := received + [data];
      if responseOutputStream == null {
        ReceiveIntoMemory(data);
      } else {
        ReceiveIntoStream(data);
      }
    }

    /** The memory destination of `connection:didReceiveData:`: append the
        chunk, or fail with ResponseTooLarge when it would pass the maximum. */
    method ReceiveIntoMemory(data: seq<Byte>)
      requires Core() && connection && responseOutputStream == null && dataAccumulator.Some? && responseBody.None?
      requires received != [] && received[|received| - 1] == data
      requires dataAccumulator == Accumulate(received[..|received| - 1], maximumResponseSize)
      modifies this`dataAccumulator, this`connection, op
      ensures Valid()
      ensures if |Flatten(received)| <= maximumResponseSize then
          op.state == RunLoopOperation.Executing && dataAccumulator == Some(Flatten(received))
        else
          op.state == RunLoopOperation.Finished
          && op.error == Some(NSError(QHTTPOperationErrorDomain, ErrorResponseTooLarge))
    {
      AccumulateIsBoundedBody(received, maximumResponseSize);
      var accumulated := dataAccumulator.value;
      if |accumulated| + |data| <= maximumResponseSize {
        dataAccumulator := Some(accumulated + data);
      } else {
        FinishWithError(Some(NSError(QHTTPOperationErrorDomain, ErrorResponseTooLarge)));
      }
    }

    /** The stream destination of `connection:didReceiveData:`: write the
        whole chunk, or fail with OnOutputStream. */
    method ReceiveIntoStream(data: seq<Byte>)
      requires Core() && connection && responseOutputStream != null && responseOutputStream.isOpen
      requires dataAccumulator.None? && responseBody.None? && received != []
      modifies this`connection, op, responseOutputStream
      ensures Valid()
      ensures op.state == RunLoopOperation.Executing <==> |data| <= old(responseOutputStream.space)
      ensures op.state == RunLoopOperation.Executing ==>
        responseOutputStream.written == old(responseOutputStream.written) + data
      ensures op.state == RunLoopOperation.Finished ==>
        op.error == Some(OutputStreamFailure)
    {
      var error := WriteAll(responseOutputStream, data);
      if error.Some? {
        FinishWithError(error);
      }
    }

    /** `connectionDidFinishLoading:`: the memory body (empty when no data
        came) becomes `responseBody`, and the operation finishes with the
        error the response's status code and content type call for. */
    method ConnectionDidFinishLoading()
      requires Valid() && connection && lastResponse.Some?
      modifies this`responseBody, this`connection, op, responseOutputStream
      ensures Valid() && op.state == RunLoopOperation.Finished && !connection
      ensures op.error == LoadOutcome(acceptableStatusCodes, acceptableContentTypes, lastResponse.value)
      ensures responseBody == if responseOutputStream == null then Some(Flatten(received)) else None
    {
      AccumulateIsBoundedBody(received, maximumResponseSize);
      if responseOutputStream == null {
        responseBody := Some(dataAccumulator.GetOr([]));
      }
      FinishWithError(LoadOutcome(acceptableStatusCodes, acceptableContentTypes, lastResponse.value));
    }

    /** `connection:didFailWithError:`: finishes with the transport error. */
    method ConnectionDidFailWithError(e: NSError)
      requires Valid() && connection && e.domain != QHTTPOperationErrorDomain
      modifies this`connection, op, responseOutputStream
      ensures Valid() && op.state == RunLoopOperation.Finished && !connection
      ensures op.error == Some(e)
      ensures lastResponse == old(lastResponse) && responseBody == old(responseBody)
    {
      FinishWithError(Some(e));
    }

    /** `cancel`. */
    method Cancel() returns (runCancelOnRunLoopThread: bool)
      requires Valid()
      modifies op`cancelled
      ensures Valid() && op.cancelled
      ensures runCancelOnRunLoopThread == (!old(op.cancelled) && op.state == RunLoopOperation.Executing)
    {
      runCancelOnRunLoopThread := op.Cancel();
    }

    /** The run loop half of `cancel`: a running operation finishes with the
        cancellation error and its connection is torn down. */
    method CancelOnRunLoopThread()
      requires Valid() && op.state != RunLoopOperation.Inited
      modifies this`connection, op, responseOutputStream
      ensures Valid() && op.state == RunLoopOperation.Finished && !connection
      ensures old(op.state) == RunLoopOperation.Executing ==> op.error == Some(RunLoopOperation.UserCancelledError())
      ensures old(op.state) == RunLoopOperation.Finished ==> op.error == old(op.error)
    {
      if op.state == RunLoopOperation.Executing {
        FinishWithError(Some(RunLoopOperation.UserCancelledError()));
      }
    }

    /** `finishWithError:` with this class's `operationWillFinish`: cancel the
        connection and close the output stream. */
    method FinishWithError(e: Option<NSError>)
      requires Core() && op.state == RunLoopOperation.Executing
      requires e.Some? && e.value.domain == QHTTPOperationErrorDomain ==> IsModuleErrorCode(e.value.code)
      modifies this`connection, op, responseOutputStream
      ensures Valid() && op.state == RunLoopOperation.Finished && !connection
      ensures op.error == e
      ensures op.hooks == old(op.hooks) + [RunLoopOperation.OperationWillFinish]
      ensures op.cancelled == old(op.cancelled)
      ensures responseOutputStream != null ==>
        (!responseOutputStream.isOpen && responseOutputStream.written == old(responseOutputStream.written))
    {
      connection := false;
      if responseOutputStream != null {
        responseOutputStream.Close();
      }
      op.FinishWithError(e);
    }
  }

  /** A GET whose response arrives in two chunks: the body is both chunks in
      order when they fit the maximum, and the operation fails with
      ResponseTooLarge when they do not; a fitting body is judged by its
      status code alone when no content types are configured. */
  method LoadTwoChunks(url: URL, response: HTTPURLResponse, first: seq<Byte>, second: seq<Byte>)
    returns (error: Option<NSError>, body: Option<seq<Byte>>)
    ensures |first| + |second| <= MaximumResponseSize ==>
      body == Some(first + second)
      && (error.None? <==> 200 <= response.statusCode <= 299)
      && (error.Some? ==> error == Some(NSError(QHTTPOperationErrorDomain, response.statusCode)))
    ensures |first| + |second| > MaximumResponseSize ==>
      body.None? && error == Some(NSError(QHTTPOperationErrorDomain, ErrorResponseTooLarge))
  {
    var operation := new HTTPOperation(URLRequest("GET", url), false);
    operation.Start();
    var sent := operation.WillSendRequest(operation.request, None);
    operation.DidReceiveResponse(response);
    operation.DidReceiveData(first);
    assert [first][..0] == [];
    assert Flatten([first]) == first;
    if operation.connection {
      operation.DidReceiveData(second);
      assert [first, second][..1] == [first];
      assert Flatten([first, second]) == first + second;
    }
    if operation.connection {
      operation.ConnectionDidFinishLoading();
    }
    error, body := operation.op.error, operation.responseBody;
  }
}
