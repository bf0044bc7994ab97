/** What the API handlers share: request methods, status codes, the
    truthiness test on optional body fields and the extraction of a token
    from the `Authorization` header. */
module Http {
  import opened Wrappers
  import opened Strings

  datatype Method = Get | Post | Put | Patch | Delete

  const OK: int := 200
  const BadRequest: int := 400
  const Unauthorized: int := 401
  const NotFound: int := 404
  const MethodNotAllowed: int := 405
  const ServerError: int := 500

  /** A response: its status code and its JSON body. */
  datatype Reply<B> = Reply(status: int, body: B)

  /** JavaScript truthiness of an optional string field of a request body:
      a missing field and the empty string are both falsy. */
  predicate Truthy(v: Option<string>) {
    v.Some? && v.value != ""
  }

  /** `header?.split(sep)[1]` where the handler goes on only when the
      result is truthy: the second piece of the header, if it exists and is
      not empty. */
  function Token(header: Option<string>, sep: string): (t: Option<string>)
    requires sep != ""
    ensures t.Some? <==> header.Some? && |Split(header.value, sep)| >= 2 && Split(header.value, sep)[1] != ""
    ensures t.Some? ==> t.value == Split(header.value, sep)[1]
  {
    if header.Some? && |Split(header.value, sep)| >= 2 && Split(header.value, sep)[1] != "" then
      Some(Split(header.value, sep)[1])
    else None
  }

  /** A header without the separator yields no token. */
  lemma NoSeparatorNoToken(header: string, sep: string)
    requires sep != "" && IndexOf(header, sep, 0) == None
    ensures Token(Some(header), sep) == None
  {
  }

  /** Splitting at a space: `Bearer <t>` yields `t` when `t` has no space. */
  lemma SpaceSplitToken(t: string)
    requires t != "" && ' ' !in t
    ensures Token(Some("Bearer " + t), " ") == Some(t)
  {
    var h := "Bearer " + t;
    assert h[..6] == "Bearer";
    FirstCharIndex(h, ' ', 6);
    assert h[7..] == t;
    MissingCharIndex(t, ' ', 0);
    assert Split(h, " ") == ["Bearer", t];
  }

  /** Splitting at `Bearer `: the header `Bearer <t>` yields `t` when `t`
      does not itself contain `Bearer `. */
  lemma BearerSplitToken(t: string)
    requires t != "" && IndexOf(t, "Bearer ", 0) == None
    ensures Token(Some("Bearer " + t), "Bearer ") == Some(t)
  {
    var h := "Bearer " + t;
    assert h[0..7] == "Bearer ";
    assert OccursAt(h, "Bearer ", 0);
    assert h[7..] == t;
    assert Split(h, "Bearer ") == [""] + Split(t, "Bearer ");
  }
}
