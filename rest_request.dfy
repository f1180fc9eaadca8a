/**
 * The part of RestSharp's RestRequest that the Jira request builders touch:
 * the resource path and HTTP method it is created with, the request format,
 * the body and the ordered query parameters. IRestRequestFactory.Create is the
 * constructor: it gives a fresh request with only the path and method set.
 */
module RestRequests {
  import opened Optional

  datatype Method = Get | Post

  /** RequestFormat: Unset stands for whatever format a freshly created request has. */
  datatype DataFormat = Unset | Json

  /** The structured objects passed to AddBody (C# anonymous objects). */
  datatype Json = JString(text: string) | JInt(number: int) | JObject(members: seq<Member>)
  datatype Member = Member(name: string, value: Json)

  datatype QueryParameter = QueryParameter(name: string, value: string)

  class RestRequest {
    var path: string
    var requestMethod: Method
    var requestFormat: DataFormat
    var body: Option<Json>
    var queryParameters: seq<QueryParameter>

    /** Nothing but the path and the method has been set. */
    predicate IsBare()
      reads this
    {
      requestFormat == Unset && body == None && queryParameters == []
    }

    /** IRestRequestFactory.Create(path, httpMethod). */
    constructor (path: string, httpMethod: Method)
      ensures this.path == path && requestMethod == httpMethod
      ensures IsBare()
    {
      this.path := path;
      requestMethod := httpMethod;
      requestFormat := Unset;
      body := None;
      queryParameters := [];
    }

    /** The RequestFormat setter. */
    method SetRequestFormat(format: DataFormat)
      modifies this
      ensures requestFormat == format
      ensures path == old(path) && requestMethod == old(requestMethod)
      ensures body == old(body) && queryParameters == old(queryParameters)
    {
      requestFormat := format;
    }

    /** AddBody: the object becomes the request body. */
    method AddBody(content: Json)
      modifies this
      ensures body == Some(content)
      ensures path == old(path) && requestMethod == old(requestMethod)
      ensures requestFormat == old(requestFormat) && queryParameters == old(queryParameters)
    {
      body := Some(content);
    }

    /** AddQueryParameter: appended after the parameters already added. */
    method AddQueryParameter(name: string, value: string)
      modifies this
      ensures queryParameters == old(queryParameters) + [QueryParameter(name, value)]
      ensures path == old(path) && requestMethod == old(requestMethod)
      ensures requestFormat == old(requestFormat) && body == old(body)
    {
      queryParameters := queryParameters + [QueryParameter(name, value)];
    }
  }
}
