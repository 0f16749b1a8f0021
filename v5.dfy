/**
 * The requests of the v5 API classes (`TwitchAPI` subclasses): an HTTP verb
 * on a path, with optional query parameters and body, tagged when the
 * method is wrapped in `@oauth_required`, and what is done with the reply.
 */
module V5 {
  import opened Wrappers
  import opened Values
  import opened Text
  import opened Responses

  datatype Verb = GET | PUT | POST | DELETE

  /** `self._request_<verb>(path, params=..., data=...)`; None where the call passes nothing. */
  datatype Request = Request(
    verb: Verb, path: string, params: Option<Params>, data: Option<Params>, needsOAuth: bool)

  /** A request together with how its reply is read. */
  datatype Call = Call(request: Request, reply: Reply)

  const TooManyObjects := "Maximum number of objects returned in one request is 100"

  /** The '/'-separated pieces of a path. */
  function Segments(path: string): seq<string>
  {
    Split(path, '/')
  }

  /** An identifier that, formatted into a path, stays one segment. */
  predicate Plain(id: string)
  {
    '/' !in id
  }

  /** A path formatted from plain identifiers splits back into them. */
  lemma Segments2(a: string, b: string)
    ensures Plain(a) && Plain(b) ==>
              Segments(a + "/" + b) == [a, b]
  {
    if Plain(a) && Plain(b) {
      assert Join([a, b], '/') == a + "/" + b by {
        assert [a, b][1..] == [b];
      }
      SplitJoin([a, b], '/');
    }
  }

  lemma Segments3(a: string, b: string, c: string)
    ensures Plain(a) && Plain(b) && Plain(c) ==>
              Segments(a + "/" + b + "/" + c) == [a, b, c]
  {
    if Plain(a) && Plain(b) && Plain(c) {
      assert Join([a, b, c], '/') == a + "/" + b + "/" + c by {
        assert [a, b, c][1..] == [b, c];
        assert [b, c][1..] == [c];
        assert Join([b, c], '/') == b + "/" + c;
        assert Join([a, b, c], '/') == a + "/" + Join([b, c], '/');
      }
      SplitJoin([a, b, c], '/');
    }
  }

  lemma Segments4(a: string, b: string, c: string, d: string)
    ensures Plain(a) && Plain(b) && Plain(c) && Plain(d) ==>
              Segments(a + "/" + b + "/" + c + "/" + d) == [a, b, c, d]
  {
    if Plain(a) && Plain(b) && Plain(c) && Plain(d) {
      assert Join([a, b, c, d], '/') == a + "/" + b + "/" + c + "/" + d by {
        assert [a, b, c, d][1..] == [b, c, d];
        assert [b, c, d][1..] == [c, d];
        assert [c, d][1..] == [d];
        assert Join([c, d], '/') == c + "/" + d;
        assert Join([b, c, d], '/') == b + "/" + Join([c, d], '/');
        assert Join([a, b, c, d], '/') == a + "/" + Join([b, c, d], '/');
      }
      SplitJoin([a, b, c, d], '/');
    }
  }
}
