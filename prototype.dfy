/**
 * The API request prototype (creational/prototype.ts).
 *
 * `clone` builds a new request from the original's fields: the `headers`
 * object is passed on by reference (a shallow copy), while the body goes
 * through a JSON round trip and so becomes a new object with equal content.
 */
module Prototype {
  import opened JsValues

  class APIRequest {
    var url: string
    var httpMethod: string
    var headers: Record
    var body: JsonBox

    constructor (url: string, httpMethod: string, headers: Record, body: JsonBox)
      ensures this.url == url && this.httpMethod == httpMethod && this.headers == headers && this.body == body
    {
      this.url := url;
      this.httpMethod := httpMethod;
      this.headers := headers;
      this.body := body;
    }

    /** A new request with the same URL, method and headers object, and a new body object with equal content. */
    method Clone() returns (c: APIRequest)
      ensures fresh(c) && c != this
      ensures c.url == url && c.httpMethod == httpMethod
      ensures c.headers == headers
      ensures fresh(c.body) && c.body != body && c.body.value == body.value
    {
      var copy := new JsonBox(body.value);
      c := new APIRequest(url, httpMethod, headers, copy);
    }
  }

  /** The script in the source file: clone, then reassign the clone's method and body. */
  method Demo() returns (base: APIRequest, cloned: APIRequest)
    ensures base.httpMethod == "GET" && base.body.value == JObject([("foo", JString("bar"))])
    ensures cloned.httpMethod == "POST" && cloned.body.value == JObject([("foo", JString("baz"))])
    ensures cloned.url == base.url == "https://example.com/api"
    ensures cloned.headers == base.headers && base.headers.entries == map["Content-Type" := "application/json"]
  {
    var headers := new Record(map["Content-Type" := "application/json"]);
    var body := new JsonBox(JObject([("foo", JString("bar"))]));
    base := new APIRequest("https://example.com/api", "GET", headers, body);
    cloned := base.Clone();
    cloned.httpMethod := "POST";
    cloned.body := new JsonBox(JObject([("foo", JString("baz"))]));
  }
}
