/**
 * The HTTP request builder (creational/builder.ts).
 *
 * The builder's fields are updated by its setters, each of which returns the
 * builder itself. `headers` and `queryParams` are objects mutated in place, and
 * `build` hands the very same objects to the request it creates, so a later
 * `addHeader` is visible through every request built before it. An undefined
 * `url` is `None`, an undefined `body` is `null`.
 */
module Builder {
  import opened JsValues
  import opened Wrappers

  class HttpRequest {
    const httpMethod: string
    const url: Option<string>
    const headers: Record
    const queryParams: Record
    const body: JsonBox?

    constructor (httpMethod: string, url: Option<string>, headers: Record, queryParams: Record, body: JsonBox?)
      ensures this.httpMethod == httpMethod && this.url == url && this.body == body
      ensures this.headers == headers && this.queryParams == queryParams
    {
      this.httpMethod := httpMethod;
      this.url := url;
      this.headers := headers;
      this.queryParams := queryParams;
      this.body := body;
    }
  }

  class HttpRequestBuilder {
    var httpMethod: string
    var url: Option<string>
    var headers: Record
    var queryParams: Record
    var body: JsonBox?

    /** The two dictionaries are separate objects, so updating one leaves the other alone. */
    ghost predicate Valid()
      reads this
    {
      headers != queryParams
    }

    /** A fresh builder: method 'GET', no URL, two new empty dictionaries and no body. */
    constructor ()
      ensures Valid()
      ensures httpMethod == "GET" && url == None && body == null
      ensures fresh(headers) && fresh(queryParams)
      ensures headers.entries == map[] && queryParams.entries == map[]
    {
      httpMethod := "GET";
      url := None;
      headers := new Record(map[]);
      queryParams := new Record(map[]);
      body := null;
    }

    method SetMethod(httpMethod: string) returns (self: HttpRequestBuilder)
      modifies this
      ensures self == this && this.httpMethod == httpMethod
      ensures url == old(url) && headers == old(headers) && queryParams == old(queryParams) && body == old(body)
    {
      this.httpMethod := httpMethod;
      self := this;
    }

    method SetURL(url: string) returns (self: HttpRequestBuilder)
      modifies this
      ensures self == this && this.url == Some(url)
      ensures httpMethod == old(httpMethod) && headers == old(headers) && queryParams == old(queryParams) && body == old(body)
    {
      this.url := Some(url);
      self := this;
    }

    /** Sets one header, overwriting an earlier value for that key; the query parameters are untouched. */
    method AddHeader(key: string, value: string) returns (self: HttpRequestBuilder)
      requires Valid()
      modifies headers
      ensures self == this
      ensures headers.entries == old(headers.entries)[key := value]
      ensures queryParams.entries == old(queryParams.entries)
    {
      headers.Set(key, value);
      self := this;
    }

    /** Sets one query parameter, overwriting an earlier value for that key; the headers are untouched. */
    method AddParam(key: string, value: string) returns (self: HttpRequestBuilder)
      requires Valid()
      modifies queryParams
      ensures self == this
      ensures queryParams.entries == old(queryParams.entries)[key := value]
      ensures headers.entries == old(headers.entries)
    {
      queryParams.Set(key, value);
      self := this;
    }

    method SetBody(body: JsonBox?) returns (self: HttpRequestBuilder)
      modifies this
      ensures self == this && this.body == body
      ensures httpMethod == old(httpMethod) && url == old(url) && headers == old(headers) && queryParams == old(queryParams)
    {
      this.body := body;
      self := this;
    }

    /** A new request carrying the current field values, sharing this builder's two dictionaries. */
    method Build() returns (r: HttpRequest)
      ensures fresh(r)
      ensures r.httpMethod == httpMethod && r.url == url && r.body == body
      ensures r.headers == headers && r.queryParams == queryParams
    {
      r := new HttpRequest(httpMethod, url, headers, queryParams, body);
    }
  }

  /** The chain at the end of the source file: POST to the example URL with one correlation header. */
  method Demo() returns (r: HttpRequest)
    ensures r.httpMethod == "POST" && r.url == Some("https://example.com/api") && r.body == null
    ensures r.headers.entries == map["correlationId" := "c1234"]
    ensures r.queryParams.entries == map[]
  {
    var b := new HttpRequestBuilder();
    b := b.SetMethod("POST");
    b := b.SetURL("https://example.com/api");
    b := b.AddHeader("correlationId", "c1234");
    r := b.Build();
  }

  /** Setters are last-write-wins, and a header added after `build` shows up in the request already built. */
  method SharedHeadersDemo() returns (r: HttpRequest)
    ensures r.httpMethod == "DELETE" && r.url == None
    ensures r.headers.entries == map["a" := "2", "b" := "3"]
  {
    var b := new HttpRequestBuilder();
    b := b.SetMethod("PUT");
    b := b.SetMethod("DELETE");
    b := b.AddHeader("a", "1");
    b := b.AddHeader("a", "2");
    r := b.Build();
    b := b.AddHeader("b", "3");
  }
}
