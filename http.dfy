/** The parts of net/http the handlers use: a request whose form has been
    parsed, and a response writer that records status, headers and body. */
module Http {

  /** What r.ParseForm() leaves: the merged query and body values (first
      value per key), or the parse error text. */
  datatype Form = Parsed(values: map<string, string>) | Malformed(cause: string)

  /** r.FormValue(key): the first value of `key`, or "" when it is absent. */
  function FormValue(form: Form, key: string): (v: string)
    ensures form.Parsed? && key in form.values ==> v == form.values[key]
    ensures form.Malformed? || key !in form.values ==> v == ""
  {
    if form.Parsed? && key in form.values then form.values[key] else ""
  }

  /** A character textproto accepts in a header name: an RFC 7230 token
      character. */
  predicate IsTokenChar(c: char)
  {
    || 'a' <= c <= 'z' || 'A' <= c <= 'Z' || '0' <= c <= '9'
    || c == '!' || c == '#' || c == '$' || c == '%' || c == '&' || c == '\'' || c == '*'
    || c == '+' || c == '-' || c == '.' || c == '^' || c == '_' || c == '`' || c == '|' || c == '~'
  }

  function UpperAscii(c: char): char
  {
    if 'a' <= c <= 'z' then (c as int - 32) as char else c
  }

  function LowerAscii(c: char): char
  {
    if 'A' <= c <= 'Z' then (c as int + 32) as char else c
  }

  /** The case a character of a header name takes: upper at the start of
      the name and after a hyphen, lower elsewhere. */
  function CaseAt(name: string, i: nat, c: char): char
    requires i < |name|
  {
    if i == 0 || name[i - 1] == '-' then UpperAscii(c) else LowerAscii(c)
  }

  function CanonicalFrom(s: string, upper: bool): (r: string)
    ensures |r| == |s|
    ensures |s| > 0 ==> r[0] == if upper then UpperAscii(s[0]) else LowerAscii(s[0])
    ensures forall i :: 0 < i < |s| ==> r[i] == CaseAt(s, i, s[i])
  {
    if s == [] then []
    else
      var c := if upper then UpperAscii(s[0]) else LowerAscii(s[0]);
      var rest := CanonicalFrom(s[1..], s[0] == '-');
      assert forall i :: 0 < i < |s| ==> rest[i - 1] == CaseAt(s, i, s[i]) by {
        forall i | 0 < i < |s| ensures rest[i - 1] == CaseAt(s, i, s[i]) {
          if i > 1 {
            assert s[1..][i - 2] == s[i - 1];
          }
        }
      }
      [c] + rest
  }

  /** textproto.CanonicalMIMEHeaderKey, the form under which net/http files
      header names and looks them up: the first letter and every letter
      after a hyphen in upper case, every other letter in lower case; a
      name holding a character outside the token set is left as it is. */
  function CanonicalKey(name: string): (key: string)
    ensures |key| == |name|
    ensures (forall i :: 0 <= i < |name| ==> IsTokenChar(name[i])) ==>
      forall i :: 0 <= i < |name| ==> key[i] == CaseAt(name, i, name[i])
    ensures (exists i :: 0 <= i < |name| && !IsTokenChar(name[i])) ==> key == name
  {
    if forall i :: 0 <= i < |name| ==> IsTokenChar(name[i]) then CanonicalFrom(name, true) else name
  }

  /** A canonical name is its own canonical form. */
  lemma CanonicalKeyIdempotent(name: string)
    ensures CanonicalKey(CanonicalKey(name)) == CanonicalKey(name)
  {
    var key := CanonicalKey(name);
    if forall i :: 0 <= i < |name| ==> IsTokenChar(name[i]) {
      assert forall i :: 0 <= i < |key| ==> IsTokenChar(key[i]) && (key[i] == '-' <==> name[i] == '-');
      assert forall i :: 0 <= i < |key| ==> CaseAt(key, i, key[i]) == key[i];
    }
  }

  /** header.Get(key): the value filed under the canonical form of `key`,
      or "" when there is none. Header maps hold canonical names, as
      net/http files incoming headers. */
  function HeaderGet(header: map<string, string>, key: string): string
  {
    if CanonicalKey(key) in header then header[CanonicalKey(key)] else ""
  }

  /** header.Del(key): removes the value filed under the canonical form. */
  function HeaderDel(header: map<string, string>, key: string): (h: map<string, string>)
    ensures HeaderGet(h, key) == ""
    ensures forall k :: k != CanonicalKey(key) ==> (k in h <==> k in header)
  {
    header - {CanonicalKey(key)}
  }

  /** The codes WriteHeader accepts; it panics on any other. */
  predicate IsStatusCode(code: int)
  {
    100 <= code <= 999
  }

  class Request {
    const path: string
    const form: Form
    var header: map<string, string>

    constructor (path: string, form: Form, header: map<string, string>)
      ensures this.path == path && this.form == form && this.header == header
    {
      this.path := path;
      this.form := form;
      this.header := header;
    }
  }

  /** A response writer. `status` is 0 until a status has been written. */
  class ResponseWriter {
    var header: map<string, string>
    var status: int
    var body: string

    constructor ()
      ensures header == map[] && status == 0 && body == ""
    {
      header := map[];
      status := 0;
      body := "";
    }

    /** WriteHeader: only the first status written counts. */
    method WriteHeader(code: int)
      requires IsStatusCode(code)
      modifies this
      ensures status == (if old(status) == 0 then code else old(status))
      ensures header == old(header) && body == old(body)
    {
      if status == 0 {
        status := code;
      }
    }

    /** Write: sends status 200 first when no status was written. */
    method Write(data: string)
      modifies this
      ensures status == (if old(status) == 0 then 200 else old(status))
      ensures body == old(body) + data
      ensures header == old(header)
    {
      if status == 0 {
        status := 200;
      }
      body := body + data;
    }

    /** http.Redirect: the target goes in `Location` with the given status. */
    method Redirect(url: string, code: int)
      requires IsStatusCode(code)
      modifies this
      ensures header == old(header)["Location" := url]
      ensures status == (if old(status) == 0 then code else old(status))
      ensures body == old(body)
    {
      header := header["Location" := url];
      WriteHeader(code);
    }
  }
}
