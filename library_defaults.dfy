/** `HttpRequests` of the `library` module: the defaults a request is meant to
    start from — timeout, retries, backoff, encoding — and the persistent URL
    parameters and headers. The static fields of the Java class are the fields
    of one object of the class below; the two maps are created on first use. */
module Defaults {
  import opened Base
  import opened Charsets

  const DEFAULT_REQUEST_TIMEOUT: int32 := 10 * 1000
  const DEFAULT_REQUEST_RETRIES: int32 := 0
  /** 1.5f */
  const DEFAULT_RETRY_BACKOFF: Float := Float(0x3FC0_0000)
  const DEFAULT_ENCODING: string := "UTF-8"

  class HttpRequests {
    var requestTimeout: int32
    var requestRetries: int32
    var retryBackoff: Float
    var requestUrlParameters: Option<map<string, string>>
    var requestHeaders: Option<map<string, string>>
    var encoding: string

    /** The parameters and headers as a request would see them: a map never
        created reads as empty. */
    function UrlParameters(): map<string, string>
      reads this
    {
      MapOf(requestUrlParameters)
    }

    function Headers(): map<string, string>
      reads this
    {
      MapOf(requestHeaders)
    }

    /** The static initial state. */
    constructor ()
      ensures GetDefaultRequestTimeout() == DEFAULT_REQUEST_TIMEOUT
      ensures GetDefaultRequestRetries() == DEFAULT_REQUEST_RETRIES
      ensures GetDefaultRetryBackoff() == DEFAULT_RETRY_BACKOFF
      ensures GetDefaultEncoding() == DEFAULT_ENCODING
      ensures requestUrlParameters.None? && requestHeaders.None?
      ensures UrlParameters() == map[] && Headers() == map[]
    {
      requestTimeout := DEFAULT_REQUEST_TIMEOUT;
      requestRetries := DEFAULT_REQUEST_RETRIES;
      retryBackoff := DEFAULT_RETRY_BACKOFF;
      requestUrlParameters := None;
      requestHeaders := None;
      encoding := DEFAULT_ENCODING;
    }

    method SetDefaultRequestTimeout(requestTimeout: int32)
      modifies this`requestTimeout
      ensures GetDefaultRequestTimeout() == requestTimeout
    {
      this.requestTimeout := requestTimeout;
    }

    method SetDefaultRequestRetries(requestRetries: int32)
      modifies this`requestRetries
      ensures GetDefaultRequestRetries() == requestRetries
    {
      this.requestRetries := requestRetries;
    }

    method SetDefaultRetryBackoff(retryBackoff: Float)
      modifies this`retryBackoff
      ensures GetDefaultRetryBackoff() == retryBackoff
    {
      this.retryBackoff := retryBackoff;
    }

    /** Adds or replaces a persistent URL parameter; the headers are untouched. */
    method AddPersistingUrlParameter(parameter: string, value: string)
      modifies this`requestUrlParameters
      ensures requestUrlParameters.Some?
      ensures UrlParameters() == old(UrlParameters())[parameter := value]
    {
      if requestUrlParameters.None? {
        requestUrlParameters := Some(map[]);
      }
      requestUrlParameters := Some(requestUrlParameters.value[parameter := value]);
    }

    /** Removes a persistent URL parameter; a no-op when there is none or the
        map was never created. */
    method RemovePersistingUrlParameter(parameter: string)
      modifies this`requestUrlParameters
      ensures UrlParameters() == old(UrlParameters()) - {parameter}
      ensures requestUrlParameters.None? <==> old(requestUrlParameters).None?
      ensures parameter !in old(UrlParameters()) ==> UrlParameters() == old(UrlParameters())
    {
      if requestUrlParameters.Some? {
        requestUrlParameters := Some(requestUrlParameters.value - {parameter});
      }
    }

    /** Adds or replaces a persistent header; the URL parameters are untouched. */
    method AddPersistingHeader(header: string, value: string)
      modifies this`requestHeaders
      ensures requestHeaders.Some?
      ensures Headers() == old(Headers())[header := value]
    {
      if requestHeaders.None? {
        requestHeaders := Some(map[]);
      }
      requestHeaders := Some(requestHeaders.value[header := value]);
    }

    /** Removes a persistent header; a no-op when there is none or the map was
        never created. */
    method RemovePersistingHeader(header: string)
      modifies this`requestHeaders
      ensures Headers() == old(Headers()) - {header}
      ensures requestHeaders.None? <==> old(requestHeaders).None?
      ensures header !in old(Headers()) ==> Headers() == old(Headers())
    {
      if requestHeaders.Some? {
        requestHeaders := Some(requestHeaders.value - {header});
      }
    }

    /** `setEncoding`: accepted, and true, exactly when the name is that of an
        available charset in any case; it is kept as given. */
    method SetEncoding(encoding: string, availableCharsets: set<string>) returns (accepted: bool)
      modifies this`encoding
      ensures accepted <==> CharsetAvailable(encoding, availableCharsets)
      ensures GetDefaultEncoding() == if accepted then encoding else old(GetDefaultEncoding())
    {
      if CharsetAvailable(encoding, availableCharsets) {
        this.encoding := encoding;
        return true;
      }
      return false;
    }

    /** The timeout last set, initially 10 000 ms. */
    function GetDefaultRequestTimeout(): (t: int32)
      reads this
      ensures t == requestTimeout
    {
      requestTimeout
    }

    /** The retry count last set, initially 0. */
    function GetDefaultRequestRetries(): (n: int32)
      reads this
      ensures n == requestRetries
    {
      requestRetries
    }

    /** The backoff last set, initially 1.5. */
    function GetDefaultRetryBackoff(): (b: Float)
      reads this
      ensures b == retryBackoff
    {
      retryBackoff
    }

    /** Creates the map if needed and returns it, never null, contents
        unchanged. */
    method GetPersistentRequestUrlParameters() returns (parameters: map<string, string>)
      modifies this`requestUrlParameters
      ensures parameters == old(UrlParameters()) == UrlParameters()
      ensures requestUrlParameters == Some(parameters)
    {
      if requestUrlParameters.None? {
        requestUrlParameters := Some(map[]);
      }
      parameters := requestUrlParameters.value;
    }

    /** Creates the map if needed and returns it, never null, contents
        unchanged. */
    method GetPersistentRequestHeaders() returns (headers: map<string, string>)
      modifies this`requestHeaders
      ensures headers == old(Headers()) == Headers()
      ensures requestHeaders == Some(headers)
    {
      if requestHeaders.None? {
        requestHeaders := Some(map[]);
      }
      headers := requestHeaders.value;
    }

    /** The encoding last accepted, initially UTF-8. */
    function GetDefaultEncoding(): (e: string)
      reads this
      ensures e == encoding
    {
      encoding
    }
  }
}
