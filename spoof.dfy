/** The proxy records and text formats of `spoof.py`: `Proxy` and its detail
    row, sorting proxies by an attribute, the "simple" `ip:port` list, the
    `name|user_agents` query-parameter files and the category menu. */
module Spoof {
  import opened Wrappers
  import opened Text

  /** A `Proxy` object; `proxy` is the `ip:port` text its constructor
      stores. */
  datatype Proxy = Proxy(
    ip: string, port: string, proxy: string, code: string, country: string,
    anonymity: string, google: string, https: string, lastChecked: string)

  /** `Proxy(ip, port, code="", ...)`. */
  function NewProxy(ip: string, port: string, code: string := "", country: string := "",
                    anonymity: string := "", google: string := "", https: string := "",
                    lastChecked: string := ""): (p: Proxy)
    ensures WellFormed(p)
    ensures p.ip == ip && p.port == port && p.code == code && p.country == country
    ensures p.anonymity == anonymity && p.google == google && p.https == https && p.lastChecked == lastChecked
  {
    Proxy(ip, port, ip + ":" + port, code, country, anonymity, google, https, lastChecked)
  }

  /** A proxy as the constructor leaves it. */
  predicate WellFormed(p: Proxy)
  {
    p.proxy == p.ip + ":" + p.port
  }

  /** The constructor's `proxy` text splits back into `ip` and `port` when
      neither contains ':'. */
  lemma EndpointSplits(ip: string, port: string)
    requires Avoids(ip, {':'}) && Avoids(port, {':'})
    ensures WellFormed(NewProxy(ip, port))
    ensures Split(NewProxy(ip, port).proxy, {':'}) == [ip, port]
  {
    assert Join([ip, port], ':') == ip + ":" + port;
    SplitJoin([ip, port], ':');
  }

  /** The data attributes of a `Proxy`. */
  datatype Attribute = Ip | Port | ProxyText | Code | Country | Anonymity | Google | Https | LastChecked

  function AttributeName(a: Attribute): string
  {
    match a
    case Ip => "ip"
    case Port => "port"
    case ProxyText => "proxy"
    case Code => "code"
    case Country => "country"
    case Anonymity => "anonymity"
    case Google => "google"
    case Https => "https"
    case LastChecked => "last_checked"
  }

  /** The attribute `__getattribute__(name)` finds, if it is a data
      attribute. */
  function AttributeNamed(name: string): (a: Option<Attribute>)
  {
    if name == "ip" then Some(Ip)
    else if name == "port" then Some(Port)
    else if name == "proxy" then Some(ProxyText)
    else if name == "code" then Some(Code)
    else if name == "country" then Some(Country)
    else if name == "anonymity" then Some(Anonymity)
    else if name == "google" then Some(Google)
    else if name == "https" then Some(Https)
    else if name == "last_checked" then Some(LastChecked)
    else None
  }

  /** Names and attributes correspond one to one. */
  lemma AttributeNames(name: string, a: Attribute)
    ensures AttributeNamed(AttributeName(a)) == Some(a)
    ensures AttributeNamed(name) == Some(a) ==> name == AttributeName(a)
  {
  }

  function Get(p: Proxy, a: Attribute): string
  {
    match a
    case Ip => p.ip
    case Port => p.port
    case ProxyText => p.proxy
    case Code => p.code
    case Country => p.country
    case Anonymity => p.anonymity
    case Google => p.google
    case Https => p.https
    case LastChecked => p.lastChecked
  }

  /** `Proxy.sorter(sort_attr)`. */
  function Sorter(p: Proxy, sortAttr: string): (r: Result<string>)
    ensures r.Ok? <==> AttributeNamed(sortAttr).Some?
    ensures r.Ok? ==> r.value == Get(p, AttributeNamed(sortAttr).value)
    ensures r.Err? ==> r.error == AttributeError
  {
    match AttributeNamed(sortAttr)
    case Some(a) => Ok(Get(p, a))
    case None => Err(AttributeError)
  }

  /** The columns of the CSV file `_generate_proxies_file` writes, in order. */
  const FieldNames: seq<string> :=
    ["IP Address", "Port", "Code", "Country", "Anonymity", "Google", "Https", "Last Checked"]

  /** The attributes under those columns. */
  const DetailColumns: seq<Attribute> := [Ip, Port, Code, Country, Anonymity, Google, Https, LastChecked]

  /** `Proxy.get_details()`: one value per column of `FieldNames`. */
  function GetDetails(p: Proxy): (row: seq<string>)
    ensures |row| == |FieldNames| == |DetailColumns|
    ensures forall i :: 0 <= i < |row| ==> row[i] == Get(p, DetailColumns[i])
  {
    [p.ip, p.port, p.code, p.country, p.anonymity, p.google, p.https, p.lastChecked]
  }

  /** A table row unpacked by `get_proxies` as `(ip, port, code, country,
      anonymity, google, https, last_checked)`: exactly eight cells, or
      ValueError. */
  function ProxyFromCells(cells: seq<string>): (r: Result<Proxy>)
    ensures r.Ok? <==> |cells| == 8
    ensures r.Err? ==> r.error == ValueError
    ensures r.Ok? ==> WellFormed(r.value) && GetDetails(r.value) == cells
  {
    if |cells| == 8 then
      Ok(NewProxy(cells[0], cells[1], cells[2], cells[3], cells[4], cells[5], cells[6], cells[7]))
    else Err(ValueError)
  }

  /** The detail row lists the fields in the order `get_proxies` unpacks
      them, so a constructed proxy is rebuilt from its row unchanged. */
  lemma DetailsRoundTrip(p: Proxy)
    requires WellFormed(p)
    ensures ProxyFromCells(GetDetails(p)) == Ok(p)
  {
  }

  /** Python's `a < b` on strings: lexicographic by code point. */
  predicate Less(a: string, b: string)
    decreases |a|
  {
    if a == [] then b != []
    else if b == [] then false
    else if a[0] != b[0] then a[0] < b[0]
    else Less(a[1..], b[1..])
  }

  lemma {:induction false} LessIrreflexive(a: string)
    ensures !Less(a, a)
    decreases |a|
  {
    if a != [] { LessIrreflexive(a[1..]); }
  }

  lemma {:induction false} LessTransitive(a: string, b: string, c: string)
    requires Less(a, b) && Less(b, c)
    ensures Less(a, c)
    decreases |a|
  {
    if a != [] && b != [] && c != [] && a[0] == b[0] == c[0] {
      LessTransitive(a[1..], b[1..], c[1..]);
    }
  }

  lemma {:induction false} LessTotal(a: string, b: string)
    ensures Less(a, b) || a == b || Less(b, a)
    decreases |a|
  {
    if a != [] && b != [] && a[0] == b[0] {
      LessTotal(a[1..], b[1..]);
      if a[1..] == b[1..] {
        assert a == [a[0]] + a[1..] && b == [b[0]] + b[1..];
      }
    }
  }

  lemma LessAsymmetric(a: string, b: string)
    requires Less(a, b)
    ensures !Less(b, a)
  {
    if Less(b, a) {
      LessTransitive(a, b, a);
      LessIrreflexive(a);
    }
  }

  /** Not after: `!(b < a)`, which is `a <= b` for strings. */
  predicate NotAfter(a: string, b: string)
  {
    !Less(b, a)
  }

  lemma NotAfterTransitive(a: string, b: string, c: string)
    requires NotAfter(a, b) && NotAfter(b, c)
    ensures NotAfter(a, c)
  {
    LessTotal(a, b);
    LessTotal(b, c);
    if Less(c, a) {
      if Less(a, b) {
        LessTransitive(c, a, b);
      }
    }
  }

  /** Non-decreasing by attribute `a`. */
  predicate SortedBy(s: seq<Proxy>, a: Attribute)
  {
    forall i, j :: 0 <= i < j < |s| ==> NotAfter(Get(s[i], a), Get(s[j], a))
  }

  /** The proxies of `s` whose attribute `a` is `k`, in their order in `s`. */
  function WithKey(s: seq<Proxy>, a: Attribute, k: string): seq<Proxy>
  {
    if s == [] then []
    else (if Get(s[0], a) == k then [s[0]] else []) + WithKey(s[1..], a, k)
  }

  /** Insert `x` before the first element that is not smaller than it. */
  function Insert(x: Proxy, s: seq<Proxy>, a: Attribute): seq<Proxy>
  {
    if s == [] || NotAfter(Get(x, a), Get(s[0], a)) then [x] + s
    else [s[0]] + Insert(x, s[1..], a)
  }

  /** Insertion sort by attribute `a`: the ordering of Python's stable
      `sorted(proxy_list, key=sort_key)`. */
  function SortBy(s: seq<Proxy>, a: Attribute): seq<Proxy>
  {
    if s == [] then [] else Insert(s[0], SortBy(s[1..], a), a)
  }

  lemma {:induction false} InsertPermutes(x: Proxy, s: seq<Proxy>, a: Attribute)
    ensures multiset(Insert(x, s, a)) == multiset(s) + multiset{x}
    decreases |s|
  {
    if s != [] && !NotAfter(Get(x, a), Get(s[0], a)) {
      InsertPermutes(x, s[1..], a);
      assert s == [s[0]] + s[1..];
    }
  }

  lemma InsertElements(x: Proxy, s: seq<Proxy>, a: Attribute)
    ensures forall y :: y in Insert(x, s, a) <==> y == x || y in s
  {
    InsertPermutes(x, s, a);
  }

  lemma {:induction false} InsertSorted(x: Proxy, s: seq<Proxy>, a: Attribute)
    requires SortedBy(s, a)
    ensures SortedBy(Insert(x, s, a), a)
    decreases |s|
  {
    if s == [] {
    } else if NotAfter(Get(x, a), Get(s[0], a)) {
      var r := [x] + s;
      forall i, j | 0 <= i < j < |r| ensures NotAfter(Get(r[i], a), Get(r[j], a)) {
        if i == 0 && j > 1 {
          NotAfterTransitive(Get(x, a), Get(s[0], a), Get(s[j - 1], a));
        }
      }
    } else {
      var rest := Insert(x, s[1..], a);
      InsertSorted(x, s[1..], a);
      InsertElements(x, s[1..], a);
      LessTotal(Get(x, a), Get(s[0], a));
      var r := [s[0]] + rest;
      forall j | 0 < j < |r| ensures NotAfter(Get(s[0], a), Get(r[j], a)) {
        assert r[j] == rest[j - 1] && r[j] in rest;
        if r[j] != x {
          var m :| 0 <= m < |s[1..]| && s[1..][m] == r[j];
          assert s[m + 1] == r[j];
        } else {
          LessAsymmetric(Get(s[0], a), Get(x, a));
        }
      }
    }
  }

  lemma WithKeyCons(y: Proxy, t: seq<Proxy>, a: Attribute, k: string)
    ensures WithKey([y] + t, a, k) == (if Get(y, a) == k then [y] else []) + WithKey(t, a, k)
  {
    assert ([y] + t)[1..] == t;
  }

  /** Insertion keeps `x` ahead of every element with an equal key: it only
      moves past strictly smaller ones. */
  lemma {:induction false} InsertWithKey(x: Proxy, s: seq<Proxy>, a: Attribute, k: string)
    ensures WithKey(Insert(x, s, a), a, k) ==
      (if Get(x, a) == k then [x] else []) + WithKey(s, a, k)
    decreases |s|
  {
    if s == [] || NotAfter(Get(x, a), Get(s[0], a)) {
      WithKeyCons(x, s, a, k);
    } else {
      var rest := Insert(x, s[1..], a);
      assert Insert(x, s, a) == [s[0]] + rest;
      InsertWithKey(x, s[1..], a, k);
      WithKeyCons(s[0], rest, a, k);
      var head := if Get(s[0], a) == k then [s[0]] else [];
      assert WithKey(s, a, k) == head + WithKey(s[1..], a, k);
      if Get(x, a) == k {
        LessIrreflexive(k);
        assert head == [];
      } else {
        assert WithKey(rest, a, k) == WithKey(s[1..], a, k);
      }
    }
  }

  lemma MultisetCons(s: seq<Proxy>)
    requires s != []
    ensures multiset(s) == multiset(s[1..]) + multiset{s[0]}
  {
    assert s == [s[0]] + s[1..];
  }

  lemma {:induction false} SortByPermutes(s: seq<Proxy>, a: Attribute)
    ensures multiset(SortBy(s, a)) == multiset(s)
    decreases |s|
  {
    if s != [] {
      SortByPermutes(s[1..], a);
      InsertPermutes(s[0], SortBy(s[1..], a), a);
      MultisetCons(s);
    }
  }

  lemma {:induction false} SortBySorted(s: seq<Proxy>, a: Attribute)
    ensures SortedBy(SortBy(s, a), a)
    decreases |s|
  {
    if s != [] {
      SortBySorted(s[1..], a);
      InsertSorted(s[0], SortBy(s[1..], a), a);
    }
  }

  /** Stability: the proxies with any one key keep their input order. */
  lemma {:induction false} SortByStable(s: seq<Proxy>, a: Attribute, k: string)
    ensures WithKey(SortBy(s, a), a, k) == WithKey(s, a, k)
    decreases |s|
  {
    if s != [] {
      SortByStable(s[1..], a, k);
      InsertWithKey(s[0], SortBy(s[1..], a), a, k);
    }
  }

  /** `Proxies.group_by(proxy_list, attribute)`: the proxies sorted by the
      named attribute, stably. `sorted` computes the key of every element,
      so an unknown attribute raises AttributeError unless the list is
      empty. */
  function GroupBy(proxyList: seq<Proxy>, attribute: string): (r: Result<seq<Proxy>>)
    ensures r.Err? <==> |proxyList| > 0 && AttributeNamed(attribute).None?
    ensures r.Err? ==> r.error == AttributeError
    ensures r.Ok? ==> multiset(r.value) == multiset(proxyList)
    ensures r.Ok? && AttributeNamed(attribute).Some? ==>
      var a := AttributeNamed(attribute).value;
      SortedBy(r.value, a) &&
      forall k :: WithKey(r.value, a, k) == WithKey(proxyList, a, k)
  {
    if proxyList == [] then Ok([])
    else
      match AttributeNamed(attribute)
      case None => Err(AttributeError)
      case Some(a) =>
        SortByPermutes(proxyList, a);
        SortBySorted(proxyList, a);
        assert forall k :: WithKey(SortBy(proxyList, a), a, k) == WithKey(proxyList, a, k) by {
          forall k { SortByStable(proxyList, a, k); }
        }
        Ok(SortBy(proxyList, a))
  }

  // ---- The "simple" proxy list ----

  /** `text.split("\n")[3:-1]`: the lines of the textarea less the first
      three and the last. */
  function SimpleLines(text: string): seq<string>
  {
    var lines := Split(text, {'\n'});
    if |lines| >= 5 then lines[3..|lines| - 1] else []
  }

  /** A line that `ip, port = line.split(':')` accepts. */
  predicate IsEndpoint(line: string)
  {
    |Split(line, {':'})| == 2
  }

  function EndpointProxy(line: string): Proxy
    requires IsEndpoint(line)
  {
    var parts := Split(line, {':'});
    NewProxy(parts[0], parts[1])
  }

  /** What the simple branch of `get_proxies` returns for these lines: a
      proxy with only `ip` and `port` per line, or ValueError if some line
      does not split into exactly two parts. */
  function SimpleProxies(lines: seq<string>): Result<seq<Proxy>>
  {
    if forall i :: 0 <= i < |lines| ==> IsEndpoint(lines[i]) then
      Ok(seq(|lines|, i requires 0 <= i < |lines| => EndpointProxy(lines[i])))
    else Err(ValueError)
  }

  /** The simple branch of `Proxies.get_proxies(simple=True)`, from the text
      of the textarea on. */
  method ParseSimpleList(text: string) returns (r: Result<seq<Proxy>>)
    ensures r == SimpleProxies(SimpleLines(text))
  {
    var raw := SimpleLines(text);
    var proxies: seq<Proxy> := [];
    for i := 0 to |raw|
      invariant |proxies| == i
      invariant forall j :: 0 <= j < i ==> IsEndpoint(raw[j]) && proxies[j] == EndpointProxy(raw[j])
    {
      var parts := Split(raw[i], {':'});
      if |parts| != 2 {
        return Err(ValueError);
      }
      proxies := proxies + [NewProxy(parts[0], parts[1])];
    }
    assert proxies == seq(|raw|, i requires 0 <= i < |raw| => EndpointProxy(raw[i]));
    return Ok(proxies);
  }

  function Endpoints(ps: seq<Proxy>): (lines: seq<string>)
    ensures |lines| == |ps|
  {
    seq(|ps|, i requires 0 <= i < |ps| => ps[i].proxy)
  }

  /** A textarea of three header lines, one `ip:port` line per proxy and a
      last line parses back into those proxies. */
  lemma SimpleListRoundTrip(header: seq<string>, ps: seq<Proxy>, last: string)
    requires |header| == 3 && (forall i :: 0 <= i < 3 ==> Avoids(header[i], {'\n'})) && Avoids(last, {'\n'})
    requires forall i :: 0 <= i < |ps| ==>
      ps[i] == NewProxy(ps[i].ip, ps[i].port) && Avoids(ps[i].ip, {':', '\n'}) && Avoids(ps[i].port, {':', '\n'})
    ensures SimpleProxies(SimpleLines(Join(header + Endpoints(ps) + [last], '\n'))) == Ok(ps)
  {
    var lines := header + Endpoints(ps) + [last];
    forall i | 0 <= i < |lines| ensures Avoids(lines[i], {'\n'}) {
      if 3 <= i < 3 + |ps| {
        var p := ps[i - 3];
        assert lines[i] == p.ip + ":" + p.port;
        AvoidsConcat(p.ip, ":", {'\n'});
        AvoidsConcat(p.ip + ":", p.port, {'\n'});
      }
    }
    SplitJoin(lines, '\n');
    assert SimpleLines(Join(lines, '\n')) == Endpoints(ps) by {
      if |lines| < 5 {
        assert |ps| == 0;
      } else {
        assert lines[3..|lines| - 1] == Endpoints(ps);
      }
    }
    var eps := Endpoints(ps);
    forall i | 0 <= i < |ps| ensures IsEndpoint(eps[i]) && EndpointProxy(eps[i]) == ps[i] {
      var p := ps[i];
      EndpointSplits(p.ip, p.port);
    }
    assert seq(|eps|, i requires 0 <= i < |eps| => EndpointProxy(eps[i])) == ps;
  }

  // ---- The query-parameter files ----

  /** The first line written to a query-parameter file. */
  function HeaderLine(category: string): string
  {
    category + "|Related User Agents"
  }

  function RowLine(row: (string, string)): string
  {
    row.0 + "|" + row.1
  }

  /** The text of a query-parameter file: the header line, then one
      `name|user_agents` line per pair, each ended by a newline. */
  function QueryParamsText(category: string, pairs: seq<(string, string)>): string
  {
    if pairs == [] then HeaderLine(category) + "\n"
    else QueryParamsText(category, pairs[..|pairs| - 1]) + RowLine(pairs[|pairs| - 1]) + "\n"
  }

  /** The index of the first row of `tag.stripped_strings` that does not
      unpack into `name, user_agents`, or the number of rows if all do. */
  function FirstMalformed(rows: seq<seq<string>>): (k: nat)
    ensures k <= |rows|
    ensures forall i :: 0 <= i < k ==> |rows[i]| == 2
    ensures k < |rows| ==> |rows[k]| != 2
  {
    if rows == [] then 0
    else if |rows[0]| != 2 then 0
    else 1 + FirstMalformed(rows[1..])
  }

  function Pairs(rows: seq<seq<string>>): (pairs: seq<(string, string)>)
    requires forall i :: 0 <= i < |rows| ==> |rows[i]| == 2
    ensures |pairs| == |rows|
  {
    seq(|rows|, i requires 0 <= i < |rows| => (rows[i][0], rows[i][1]))
  }

  /** The writing loop of `UserAgents._get_query_options_data`: the file is
      opened for writing first, so when a row does not unpack the file keeps
      the header and the rows before it, and ValueError escapes. */
  method WriteQueryParams(category: string, rows: seq<seq<string>>) returns (content: string, error: Option<Exception>)
    ensures var k := FirstMalformed(rows);
      content == QueryParamsText(category, Pairs(rows[..k])) &&
      (error.Some? <==> k < |rows|) &&
      (error.Some? ==> error.value == ValueError)
  {
    content := HeaderLine(category) + "\n";
    for i := 0 to |rows|
      invariant forall j :: 0 <= j < i ==> |rows[j]| == 2
      invariant content == QueryParamsText(category, Pairs(rows[..i]))
    {
      if |rows[i]| != 2 {
        return content, Some(ValueError);
      }
      var name, userAgents := rows[i][0], rows[i][1];
      assert Pairs(rows[..i + 1])[..i] == Pairs(rows[..i]);
      content := content + name + "|" + userAgents + "\n";
    }
    assert rows[..|rows|] == rows;
    error := None;
  }

  /** Reading a file in text mode turns "\r\n" and a lone "\r" into "\n". */
  function Translate(s: string): string
    decreases |s|
  {
    if s == [] then []
    else if s[0] == '\r' then
      if |s| > 1 && s[1] == '\n' then "\n" + Translate(s[2..]) else "\n" + Translate(s[1..])
    else [s[0]] + Translate(s[1..])
  }

  lemma {:induction false} TranslateNoReturn(s: string)
    requires Avoids(s, {'\r'})
    ensures Translate(s) == s
    decreases |s|
  {
    if s != [] {
      assert Avoids(s[1..], {'\r'});
      TranslateNoReturn(s[1..]);
      assert s == [s[0]] + s[1..];
    }
  }

  /** The lines a text-mode file iterates over, each with its newline taken
      off by `rstrip('\n')`. */
  function FileLines(content: string): seq<string>
  {
    var t := Translate(content);
    if t == [] then []
    else if t[|t| - 1] == '\n' then Split(t[..|t| - 1], {'\n'})
    else Split(t, {'\n'})
  }

  /** The lines after the header that `file.readline()` skips. */
  function BodyLines(content: string): seq<string>
  {
    var lines := FileLines(content);
    if lines == [] then [] else lines[1..]
  }

  predicate IsRow(line: string)
  {
    |Split(line, {'|'})| == 2
  }

  function RowOf(line: string): (string, string)
    requires IsRow(line)
  {
    var parts := Split(line, {'|'});
    (parts[0], parts[1])
  }

  /** What the reading loop of `list_query_options` finds in these lines:
      the `(name, user_agents)` of each, or ValueError if some line does not
      split on '|' into exactly two parts. */
  function QueryRows(lines: seq<string>): Result<seq<(string, string)>>
  {
    if forall i :: 0 <= i < |lines| ==> IsRow(lines[i]) then
      Ok(seq(|lines|, i requires 0 <= i < |lines| => RowOf(lines[i])))
    else Err(ValueError)
  }

  /** The reading loop of `UserAgents.list_query_options`. */
  method ReadQueryParams(content: string) returns (r: Result<seq<(string, string)>>)
    ensures r == QueryRows(BodyLines(content))
  {
    var lines := BodyLines(content);
    var rows: seq<(string, string)> := [];
    for i := 0 to |lines|
      invariant |rows| == i
      invariant forall j :: 0 <= j < i ==> IsRow(lines[j]) && rows[j] == RowOf(lines[j])
    {
      var parts := Split(lines[i], {'|'});
      if |parts| != 2 {
        assert !IsRow(lines[i]);
        return Err(ValueError);
      }
      assert RowOf(lines[i]) == (parts[0], parts[1]);
      rows := rows + [(parts[0], parts[1])];
    }
    assert rows == seq(|lines|, i requires 0 <= i < |lines| => RowOf(lines[i]));
    return Ok(rows);
  }

  function RowLines(pairs: seq<(string, string)>): (lines: seq<string>)
    ensures |lines| == |pairs|
  {
    seq(|pairs|, i requires 0 <= i < |pairs| => RowLine(pairs[i]))
  }

  lemma {:induction false} QueryParamsTextJoined(category: string, pairs: seq<(string, string)>)
    ensures QueryParamsText(category, pairs) == Join([HeaderLine(category)] + RowLines(pairs), '\n') + "\n"
    decreases |pairs|
  {
    if pairs != [] {
      var init := pairs[..|pairs| - 1];
      QueryParamsTextJoined(category, init);
      assert [HeaderLine(category)] + RowLines(pairs) ==
        ([HeaderLine(category)] + RowLines(init)) + [RowLine(pairs[|pairs| - 1])];
      JoinSnoc([HeaderLine(category)] + RowLines(init), RowLine(pairs[|pairs| - 1]), '\n');
    }
  }

  lemma {:induction false} JoinAvoids(parts: seq<string>, sep: char, cs: set<char>)
    requires sep !in cs && forall i :: 0 <= i < |parts| ==> Avoids(parts[i], cs)
    ensures Avoids(Join(parts, sep), cs)
    decreases |parts|
  {
    if |parts| > 1 {
      JoinAvoids(parts[1..], sep, cs);
      AvoidsConcat(parts[0], [sep], cs);
      AvoidsConcat(parts[0] + [sep], Join(parts[1..], sep), cs);
    }
  }

  lemma LinesAvoid(category: string, pairs: seq<(string, string)>)
    requires Avoids(category, {'\n', '\r'})
    requires forall i :: 0 <= i < |pairs| ==>
      Avoids(pairs[i].0, {'|', '\n', '\r'}) && Avoids(pairs[i].1, {'|', '\n', '\r'})
    ensures var lines := [HeaderLine(category)] + RowLines(pairs);
      forall i :: 0 <= i < |lines| ==> Avoids(lines[i], {'\n', '\r'})
  {
    var lines := [HeaderLine(category)] + RowLines(pairs);
    assert Avoids("|Related User Agents", {'\n', '\r'});
    AvoidsConcat(category, "|Related User Agents", {'\n', '\r'});
    forall i | 0 <= i < |lines| ensures Avoids(lines[i], {'\n', '\r'}) {
      if i > 0 {
        var row := pairs[i - 1];
        assert lines[i] == row.0 + "|" + row.1;
        AvoidsConcat(row.0, "|", {'\n', '\r'});
        AvoidsConcat(row.0 + "|", row.1, {'\n', '\r'});
      }
    }
  }

  /** Lines free of line breaks, each ended by a newline, read back as those
      lines; the header is skipped. */
  lemma BodyOfJoined(lines: seq<string>)
    requires |lines| >= 1 && forall i :: 0 <= i < |lines| ==> Avoids(lines[i], {'\n', '\r'})
    ensures BodyLines(Join(lines, '\n') + "\n") == lines[1..]
  {
    var joined := Join(lines, '\n');
    forall i | 0 <= i < |lines| ensures Avoids(lines[i], {'\r'}) && Avoids(lines[i], {'\n'}) {
      assert Avoids(lines[i], {'\n', '\r'});
    }
    JoinAvoids(lines, '\n', {'\r'});
    AvoidsConcat(joined, "\n", {'\r'});
    TranslateNoReturn(joined + "\n");
    assert (joined + "\n")[..|joined + "\n"| - 1] == joined;
    SplitJoin(lines, '\n');
  }

  lemma RowsOfRowLines(pairs: seq<(string, string)>)
    requires forall i :: 0 <= i < |pairs| ==> Avoids(pairs[i].0, {'|'}) && Avoids(pairs[i].1, {'|'})
    ensures QueryRows(RowLines(pairs)) == Ok(pairs)
  {
    var lines := RowLines(pairs);
    forall i | 0 <= i < |pairs| ensures IsRow(lines[i]) && RowOf(lines[i]) == pairs[i] {
      var row := pairs[i];
      assert Join([row.0, row.1], '|') == row.0 + "|" + row.1;
      SplitJoin([row.0, row.1], '|');
    }
    assert seq(|lines|, i requires 0 <= i < |lines| => RowOf(lines[i])) == pairs;
  }

  /** Fields free of '|', '\n' and '\r' survive a write and a read: the
      reader gets back exactly the pairs the writer was given. */
  lemma QueryParamsRoundTrip(category: string, pairs: seq<(string, string)>)
    requires Avoids(category, {'\n', '\r'})
    requires forall i :: 0 <= i < |pairs| ==>
      Avoids(pairs[i].0, {'|', '\n', '\r'}) && Avoids(pairs[i].1, {'|', '\n', '\r'})
    ensures QueryRows(BodyLines(QueryParamsText(category, pairs))) == Ok(pairs)
  {
    var lines := [HeaderLine(category)] + RowLines(pairs);
    LinesAvoid(category, pairs);
    QueryParamsTextJoined(category, pairs);
    BodyOfJoined(lines);
    assert lines[1..] == RowLines(pairs);
    forall i | 0 <= i < |pairs| ensures Avoids(pairs[i].0, {'|'}) && Avoids(pairs[i].1, {'|'}) {
      assert Avoids(pairs[i].0, {'|', '\n', '\r'}) && Avoids(pairs[i].1, {'|', '\n', '\r'});
    }
    RowsOfRowLines(pairs);
  }

  // ---- The category menu of list_query_options ----

  /** The path of the query-parameter file of a category. */
  function CategoryPath(name: string): string
  {
    "user_agents/user_agents_" + name + "_query_params.csv"
  }

  /** The menu entry `list_query_options` picks: `category` itself when it
      is non-negative, else the typed number less one (`typed` is the result
      of `int(input(...))`, None when that raises ValueError); None when the
      index is not a key of `urls = {index: name for index, name in
      enumerate(categories)}`, which prints "Invalid number selection". */
  function Selection(categories: seq<string>, category: int, typed: Option<int>): (r: Result<Option<nat>>)
    ensures category >= 0 ==> r == Ok(if category < |categories| then Some(category) else None)
    ensures category < 0 && typed.None? ==> r == Err(ValueError)
    ensures category < 0 && typed.Some? ==>
      r == Ok(if 1 <= typed.value <= |categories| then Some(typed.value - 1) else None)
  {
    var urls := map i | 0 <= i < |categories| :: categories[i];
    if category < 0 && typed.None? then Err(ValueError)
    else
      var choice := if category >= 0 then category else typed.value - 1;
      if choice in urls then Ok(Some(choice)) else Ok(None)
  }

  /** What one run of `list_query_options` does: rejects the number, lists
      the file of the chosen category, or finds that file missing (the source
      then fetches it with `get_query_options_data` and runs again with
      `category` set to the choice). */
  datatype Listing = InvalidNumber | Listed(name: string, rows: seq<(string, string)>) | FileMissing(choice: nat)

  /** `UserAgents.list_query_options(category)`. `categories` are the
      query-type names in order; `files` maps the paths of the files on disk
      to their text. */
  method ListQueryOptions(categories: seq<string>, category: int, typed: Option<int>, files: map<string, string>)
    returns (r: Result<Listing>)
    ensures var sel := Selection(categories, category, typed);
      (sel.Err? ==> r == Err(sel.error)) &&
      (sel == Ok(None) ==> r == Ok(InvalidNumber)) &&
      (sel.Ok? && sel.value.Some? ==>
        var i := sel.value.value;
        var path := CategoryPath(categories[i]);
        if path !in files then r == Ok(FileMissing(i))
        else
          var rows := QueryRows(BodyLines(files[path]));
          r == if rows.Ok? then Ok(Listed(categories[i], rows.value)) else Err(rows.error))
  {
    var sel := Selection(categories, category, typed);
    if sel.Err? {
      return Err(sel.error);
    }
    if sel.value.None? {
      return Ok(InvalidNumber);
    }
    var choice := sel.value.value;
    var path := CategoryPath(categories[choice]);
    if path !in files {
      return Ok(FileMissing(choice));
    }
    var rows := ReadQueryParams(files[path]);
    if rows.Err? {
      return Err(rows.error);
    }
    return Ok(Listed(categories[choice], rows.value));
  }

  /** The second run after a missing file selects the same category without
      asking, whatever would have been typed. */
  lemma RerunSelectsSame(categories: seq<string>, choice: nat, typed: Option<int>)
    requires choice < |categories|
    ensures Selection(categories, choice, typed) == Ok(Some(choice))
  {
  }
}
