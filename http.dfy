/** The slice of Alamofire's HTTP vocabulary the core uses: methods, headers and query items. */
module Http {
  import opened Wrappers

  datatype HttpMethod = Get | Post | Put | Patch | Delete

  datatype Header = Header(name: string, value: string)

  /** `.accept(v)` */
  function Accept(v: string): Header {
    Header("Accept", v)
  }

  /** `.contentType(v)` */
  function ContentType(v: string): Header {
    Header("Content-Type", v)
  }

  /** `.authorization(bearerToken: t)` */
  function Bearer(token: string): Header {
    Header("Authorization", "Bearer " + token)
  }

  predicate HasHeaderNamed(hs: seq<Header>, name: string) {
    exists i :: 0 <= i < |hs| && hs[i].name == name
  }

  /**
   * `HTTPHeaders.add(_:)`: replaces the first header of the same name, or
   * appends when there is none (Alamofire compares names ignoring case; the
   * model compares them exactly).
   */
  function Add(hs: seq<Header>, h: Header): (r: seq<Header>)
    ensures h in r
    ensures forall x :: x in r ==> x == h || x in hs
    ensures forall x :: x in hs && x.name != h.name ==> x in r
    ensures !HasHeaderNamed(hs, h.name) ==> r == hs + [h]
    ensures |r| == if HasHeaderNamed(hs, h.name) then |hs| else |hs| + 1
  {
    if hs == [] then [h]
    else if hs[0].name == h.name then [h] + hs[1..]
    else
      var rest := Add(hs[1..], h);
      assert HasHeaderNamed(hs, h.name) <==> HasHeaderNamed(hs[1..], h.name) by {
        if HasHeaderNamed(hs, h.name) {
          var i :| 0 <= i < |hs| && hs[i].name == h.name;
          assert hs[1..][i - 1].name == h.name;
        }
        if HasHeaderNamed(hs[1..], h.name) {
          var i :| 0 <= i < |hs[1..]| && hs[1..][i].name == h.name;
          assert hs[i + 1].name == h.name;
        }
      }
      [hs[0]] + rest
  }

  /** `URLQueryItem(name:value:)` */
  datatype QueryItem = QueryItem(name: string, value: Option<string>)
}
