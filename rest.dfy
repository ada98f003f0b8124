/**
 * The client interface the command layer is written against: `Read`,
 * `Write` and `Stream` of a request made of a URL path and an optional JSON
 * body. The implementation behind it (retries, telemetry, the HTTP exchange)
 * is a parameter; an error is its message text.
 */
module Rest {

  import opened Wrappers
  import opened Json

  datatype Request = Request(path: seq<string>, body: Option<Json>)

  datatype Client = Client(
    read: Request -> Result<Json, string>,
    write: Request -> Result<Json, string>,
    stream: Request -> Result<seq<string>, string>)
}
