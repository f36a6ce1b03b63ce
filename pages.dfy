/** The paginated branch of `post` up to the first reply: every page of a paged
    `content` inherits the parent's embed data, receives a page-counter footer, and is
    wrapped into a payload with the navigation row (utils/extenders/Message.js:76-123).
    An embed is represented by its `data` map. */
module Pages {
  import opened Js

  /** A navigation button; only its custom id is modelled. */
  datatype Button = Button(customId: string)

  /** The row of three buttons every paged payload carries. */
  const NavRow: seq<Button> := [Button("prev"), Button("next"), Button("stop")]

  /** One element of `sending`: the object later passed to `reply` and `edit`. */
  datatype Payload = Payload(
    content: Value,
    embed: map<string, Value>,
    files: Value,
    components: seq<seq<Button>>,
    allowedMentions: Value)

  /** The properties of a paged `content` object that pagination reads. */
  datatype Parent = Parent(data: Value, pages: seq<Value>, footer: Value, files: Value)

  /** `content.pages.map(...)` needs `pages` to be an array; anything else has no `map`. */
  function ParseParent(content: map<string, Value>): (r: Result<Parent>)
    ensures r.Ok? <==> Get(content, "pages").Arr?
    ensures r.Ok? ==> (&& r.value.pages == Get(content, "pages").items
                       && r.value.data == Get(content, "data")
                       && r.value.footer == Get(content, "footer")
                       && r.value.files == Get(content, "files"))
  {
    match Get(content, "pages")
    case Arr(items) =>
      Ok(Parent(Get(content, "data"), items, Get(content, "footer"), Get(content, "files")))
    case _ => Err(TypeError)
  }

  /** `Object.keys(content.data)` paired with `content.data[key]`: it throws on
      `undefined` and `null`, and a boolean or number has no keys. The index keys of a
      string or an array are not modelled. */
  function DataEntries(data: Value): Result<map<string, Value>> {
    match data
    case Obj(m) => Ok(m)
    case Bool(_) => Ok(map[])
    case Num(_) => Ok(map[])
    case Undefined => Err(TypeError)
    case Null => Err(TypeError)
    case Str(_) => Err(Unmodelled)
    case Arr(_) => Err(Unmodelled)
  }

  /** The `data` of a page, which must be an embed object. */
  function PageData(page: Value): Result<map<string, Value>> {
    if page.Obj? && Get(page.props, "data").Obj? then Ok(Get(page.props, "data").props)
    else Err(TypeError)
  }

  /** `v.iconURL = icon`: only an object keeps the property (a primitive ignores the
      write, and an array's named property is not part of its value). */
  function SetIcon(v: Value, icon: Value): Value {
    if v.Obj? then Obj(v.props["iconURL" := icon]) else v
  }

  /** The new value of the page's property `k` after the parent's key `k` has been
      processed, from the parent's value `inherited` and the page's own value `own`
      (`undefined` when the page lacks it), or the error that processing throws. */
  function KeyStep(k: string, inherited: Value, own: Value): (r: Result<Value>)
    ensures r.Err? ==> k == "fields"
  {
    // a falsy own value is replaced by the parent's
    var v := Or(own, inherited);
    if k == "author" then
      // which then never lacks the parent's icon
      if Truthy(inherited) && Truthy(Prop(inherited, "iconURL")) && !Truthy(Prop(v, "iconURL"))
      then Ok(SetIcon(v, Prop(inherited, "iconURL")))
      else Ok(v)
    else if k == "fields" then
      // `unshift` of the parent's value, as one element, onto the page's list
      if !v.Arr? then Err(TypeError)
      else if !Truthy(own) then Err(Unmodelled)  // the parent's own array, pushed into itself
      else Ok(Arr([inherited] + v.items))
    else Ok(v)
  }

  /** The failure of the `fields` key, the only key that can fail. */
  predicate FieldsFail(parent: map<string, Value>, page: map<string, Value>) {
    "fields" in parent && KeyStep("fields", parent["fields"], Get(page, "fields")).Err?
  }

  /** A page's data after every parent key other than `pages` has been processed.
      Each key touches only the page's property of the same name, so the order of
      `Object.keys` does not matter. */
  function Inherit(parent: map<string, Value>, page: map<string, Value>): (r: Result<map<string, Value>>)
    ensures r.Err? <==> FieldsFail(parent, page)
    ensures r.Err? ==> r.error == KeyStep("fields", parent["fields"], Get(page, "fields")).error
    ensures r.Ok? ==> r.value.Keys == page.Keys + (parent.Keys - {"pages"})
  {
    if FieldsFail(parent, page) then
      Err(KeyStep("fields", parent["fields"], Get(page, "fields")).error)
    else
      Ok(map k | k in page.Keys + (parent.Keys - {"pages"}) ::
           if k in parent && k != "pages" then KeyStep(k, parent[k], Get(page, k)).value else page[k])
  }

  /** What inheriting does to each property of the page (lines 79-82). */
  lemma InheritProperties(parent: map<string, Value>, page: map<string, Value>, r: Result<map<string, Value>>)
    requires r == Inherit(parent, page)
    // a property the page lacks or holds falsy takes the parent's value
    ensures r.Ok? ==> forall k :: k in parent && k != "pages" && k != "fields" && !Truthy(Get(page, k))
                        ==> r.value[k] == parent[k]
    // a truthy property of the page is kept (the author's icon and the fields list aside)
    ensures r.Ok? ==> forall k :: k in page && k != "author" && k != "fields" && Truthy(page[k])
                        ==> r.value[k] == page[k]
    // what the parent does not have, and `pages`, is untouched
    ensures r.Ok? ==> forall k :: k in page && (k !in parent || k == "pages") ==> r.value[k] == page[k]
    // an own author object lacking an icon takes the parent author's icon
    ensures r.Ok? && "author" in parent && "author" in page && page["author"].Obj?
            && Truthy(Prop(parent["author"], "iconURL")) && !Truthy(Prop(page["author"], "iconURL"))
            ==> r.value["author"] == Obj(page["author"].props["iconURL" := Prop(parent["author"], "iconURL")])
    // an own author that has an icon, or whose parent offers none, is kept
    ensures r.Ok? && "author" in page && Truthy(page["author"])
            && ("author" !in parent || !Truthy(Prop(parent["author"], "iconURL")) || Truthy(Prop(page["author"], "iconURL")))
            ==> r.value["author"] == page["author"]
    // a truthy own author that is not an object ignores the icon write
    ensures r.Ok? && "author" in page && Truthy(page["author"]) && !page["author"].Obj?
            ==> r.value["author"] == page["author"]
    // own fields gain the parent's value as their new first element
    ensures "fields" in parent && Get(page, "fields").Arr?
            ==> r.Ok? && r.value["fields"] == Arr([parent["fields"]] + page["fields"].items)
    // pages without own fields fail whenever the parent has a `fields` key
    ensures "fields" in parent && !Truthy(Get(page, "fields")) ==> r.Err?
  {
  }

  /** The `forEach` callback for one parent key (lines 79-82), updating the page's
      data one statement per source line. */
  method ProcessKey(key: string, inherited: Value, data: map<string, Value>) returns (r: Result<map<string, Value>>)
    ensures key == "pages" ==> r == Ok(data)
    ensures key != "pages" ==> r == (var step := KeyStep(key, inherited, Get(data, key));
                                     if step.Ok? then Ok(data[key := step.value]) else Err(step.error))
  {
    if key == "pages" {
      return Ok(data);
    }
    var own := Get(data, key);
    var page := data;
    if !Truthy(own) {
      page := page[key := inherited];
    }
    assert page == data[key := Or(own, inherited)];
    if key == "author" && Truthy(inherited) && Truthy(Prop(inherited, "iconURL"))
       && !Truthy(Prop(page[key], "iconURL")) {
      page := page[key := SetIcon(page[key], Prop(inherited, "iconURL"))];
    }
    if key == "fields" {
      match page[key]
      case Arr(items) =>
        if !Truthy(own) {
          // `page.data.fields` is the parent's array itself
          return Err(Unmodelled);
        }
        page := page[key := Arr([inherited] + items)];
      case _ =>
        return Err(TypeError);
    }
    r := Ok(page);
  }

  /** The `forEach` over the parent's keys (lines 78-83). */
  method InheritKeys(parent: map<string, Value>, page: map<string, Value>) returns (r: Result<map<string, Value>>)
    ensures r == Inherit(parent, page)
  {
    var data := page;
    var todo := parent.Keys;
    while todo != {}
      invariant todo <= parent.Keys
      invariant data.Keys == page.Keys + (parent.Keys - todo - {"pages"})
      invariant forall k :: k in data && (k !in parent || k in todo || k == "pages") ==> data[k] == page[k]
      invariant forall k :: k in parent && k !in todo && k != "pages" ==>
        KeyStep(k, parent[k], Get(page, k)).Ok? && data[k] == KeyStep(k, parent[k], Get(page, k)).value
      invariant "fields" in parent && "fields" !in todo ==> !FieldsFail(parent, page)
      decreases todo
    {
      var key :| key in todo;
      assert Get(data, key) == Get(page, key);
      todo := todo - {key};
      var step := ProcessKey(key, parent[key], data);
      if step.Err? {
        assert key == "fields" && FieldsFail(parent, page);
        assert Inherit(parent, page) == Err(step.error);
        return Err(step.error);
      }
      data := step.value;
    }
    assert !FieldsFail(parent, page);
    var expected := Inherit(parent, page).value;
    assert data.Keys == expected.Keys;
    forall k | k in data
      ensures data[k] == expected[k]
    {
    }
    assert data == expected;
    r := Ok(data);
  }

  /** The counter `『 Page i/N 』` for the 1-based page `i` of `N`. */
  function Counter(i: nat, n: nat): string {
    CounterPrefix + NatStr(i) + "/" + NatStr(n) + CounterSuffix
  }

  /** Setting the page footer (lines 85-95) for the page at 0-based `index` of `total`,
      from the parent's `footer` property. */
  function WithFooter(data: map<string, Value>, footer: Value, index: nat, total: nat): (r: map<string, Value>)
    // nothing but the footer changes
    ensures forall k :: k in data && k != "footer" ==> k in r && r[k] == data[k]
    ensures r.Keys <= data.Keys + {"footer"}
    // no parent footer: the counter is the whole footer
    ensures !Truthy(footer) ==> "footer" in r && r["footer"] == Obj(map["text" := Str(Counter(index + 1, total))])
    // a parent footer with text: the counter followed by that text, other footer properties kept
    ensures Truthy(Prop(footer, "text")) ==>
              && "footer" in r && r["footer"].Obj? && footer.Obj?
              && r["footer"].props.Keys == footer.props.Keys
              && Prop(r["footer"], "text") == Str(Counter(index + 1, total) + Stringify(Prop(footer, "text")))
              && forall k :: k in footer.props && k != "text" ==> r["footer"].props[k] == footer.props[k]
    // a parent footer without text leaves the page's footer alone
    ensures Truthy(footer) && !Truthy(Prop(footer, "text")) ==> r == data
  {
    if Truthy(footer) then
      match footer
      case Obj(f) =>
        var text := Get(f, "text");
        if Truthy(text) then data["footer" := Obj(f["text" := Str(Counter(index + 1, total) + Stringify(text))])]
        else data
      case _ => data
    else
      data["footer" := Obj(map["text" := Str(Counter(index + 1, total))])]
  }

  /** The `map` callback for the page at `index` (lines 77-98). */
  function NormalizedPage(p: Parent, index: nat): Result<map<string, Value>>
    requires index < |p.pages|
  {
    var keys :- DataEntries(p.data);
    var data :- PageData(p.pages[index]);
    var inherited :- Inherit(keys, data);
    Ok(WithFooter(inherited, p.footer, index, |p.pages|))
  }

  /** The pages from `from` on, normalised in order; the first throw ends the `map`. */
  function NormalizedPages(p: Parent, from: nat): (r: Result<seq<map<string, Value>>>)
    requires from <= |p.pages|
    ensures r.Ok? ==> |r.value| == |p.pages| - from
    decreases |p.pages| - from
  {
    if from == |p.pages| then Ok([])
    else
      var first :- NormalizedPage(p, from);
      var rest :- NormalizedPages(p, from + 1);
      Ok([first] + rest)
  }

  /** The pages normalise as a whole exactly when each does, and each comes out as it
      would alone: the normalisation of one page never depends on another. */
  lemma {:induction false} NormalizedPagesAt(p: Parent, from: nat)
    requires from <= |p.pages|
    ensures NormalizedPages(p, from).Ok? <==> forall i :: from <= i < |p.pages| ==> NormalizedPage(p, i).Ok?
    ensures NormalizedPages(p, from).Ok? ==>
              forall j :: 0 <= j < |p.pages| - from ==> NormalizedPages(p, from).value[j] == NormalizedPage(p, from + j).value
    decreases |p.pages| - from
  {
    if from < |p.pages| {
      NormalizedPagesAt(p, from + 1);
      var r := NormalizedPages(p, from);
      if r.Ok? {
        var first := NormalizedPage(p, from);
        var rest := NormalizedPages(p, from + 1);
        assert first.Ok? && rest.Ok? && r.value == [first.value] + rest.value;
        forall j | 0 <= j < |p.pages| - from
          ensures r.value[j] == NormalizedPage(p, from + j).value
        {
          if j > 0 {
            assert r.value[j] == rest.value[j - 1];
          }
        }
      }
    }
  }

  /** One page's `map` callback, as statements. */
  method NormalizePage(p: Parent, index: nat) returns (r: Result<map<string, Value>>)
    requires index < |p.pages|
    ensures r == NormalizedPage(p, index)
  {
    var keys := DataEntries(p.data);
    if keys.Err? {
      return Err(keys.error);
    }
    var data := PageData(p.pages[index]);
    if data.Err? {
      return Err(data.error);
    }
    var inherited := InheritKeys(keys.value, data.value);
    if inherited.Err? {
      return Err(inherited.error);
    }
    r := Ok(WithFooter(inherited.value, p.footer, index, |p.pages|));
  }

  /** `content.pages.map(...)`. */
  method NormalizePages(p: Parent) returns (r: Result<seq<map<string, Value>>>)
    ensures r == NormalizedPages(p, 0)
  {
    var done: seq<map<string, Value>> := [];
    var i := 0;
    assert NormalizedPages(p, 0).Ok? ==> NormalizedPages(p, 0).value == done + NormalizedPages(p, 0).value;
    while i < |p.pages|
      invariant 0 <= i <= |p.pages|
      invariant NormalizedPages(p, i).Err? ==> NormalizedPages(p, 0) == NormalizedPages(p, i)
      invariant NormalizedPages(p, i).Ok? ==> NormalizedPages(p, 0) == Ok(done + NormalizedPages(p, i).value)
      decreases |p.pages| - i
    {
      var page := NormalizePage(p, i);
      if page.Err? {
        return Err(page.error);
      }
      if NormalizedPages(p, i + 1).Ok? {
        var rest := NormalizedPages(p, i + 1).value;
        assert done + ([page.value] + rest) == (done + [page.value]) + rest;
      }
      done := done + [page.value];
      i := i + 1;
    }
    assert done + [] == done;
    r := Ok(done);
  }

  /** The payload for one normalised page (lines 100-123). */
  function Wrap(page: map<string, Value>, files: Value): Payload {
    Payload(Undefined, page, Or(files, Arr([])), [NavRow], NoPing)
  }

  /** The whole paginated preparation: `sending`, or the error thrown on the way. */
  function Paginate(content: map<string, Value>): (r: Result<seq<Payload>>)
    ensures r.Ok? ==> Get(content, "pages").Arr? && |r.value| == |Get(content, "pages").items|
    // every payload starts with no content, the shared files and the full button row
    ensures r.Ok? ==> forall i :: 0 <= i < |r.value| ==>
              && r.value[i].content == Undefined
              && r.value[i].files == Or(Get(content, "files"), Arr([]))
              && r.value[i].components == [NavRow]
              && r.value[i].allowedMentions == NoPing
  {
    var p :- ParseParent(content);
    var pages :- NormalizedPages(p, 0);
    Ok(seq(|pages|, i requires 0 <= i < |pages| => Wrap(pages[i], p.files)))
  }

  /** Page `i` of a paginated post carries the `i`-th page, normalised on its own. */
  lemma PaginatedPage(content: map<string, Value>, i: nat)
    requires Paginate(content).Ok? && i < |Paginate(content).value|
    ensures ParseParent(content).Ok?
    ensures NormalizedPage(ParseParent(content).value, i).Ok?
    ensures Paginate(content).value[i].embed == NormalizedPage(ParseParent(content).value, i).value
  {
    NormalizedPagesAt(ParseParent(content).value, 0);
  }

  /** Without a parent footer, page `i` of `N` shows exactly the counter `『 Page i/N 』`,
      and so no two pages show the same footer. */
  lemma CounterFooters(content: map<string, Value>, i: nat, j: nat)
    requires Paginate(content).Ok? && i < |Paginate(content).value| && j < |Paginate(content).value|
    requires !Truthy(Get(content, "footer"))
    ensures "footer" in Paginate(content).value[i].embed
    ensures Paginate(content).value[i].embed["footer"]
            == Obj(map["text" := Str(Counter(i + 1, |Paginate(content).value|))])
    ensures i != j ==> "footer" in Paginate(content).value[j].embed && Paginate(content).value[i].embed["footer"] != Paginate(content).value[j].embed["footer"]
  {
    PaginatedPage(content, i);
    PaginatedPage(content, j);
    var n := |Paginate(content).value|;
    var fi := Paginate(content).value[i].embed["footer"];
    var fj := Paginate(content).value[j].embed["footer"];
    if i != j && fi == fj {
      assert Prop(fi, "text") == Prop(fj, "text");
      CounterInjective(i + 1, n, j + 1, n);
    }
  }

  /** With a parent footer text `s`, page `i` of `N` shows `『 Page i/N 』` followed by `s`. */
  lemma TextFooters(content: map<string, Value>, i: nat, s: string)
    requires Paginate(content).Ok? && i < |Paginate(content).value|
    requires Prop(Get(content, "footer"), "text") == Str(s) && s != ""
    ensures "footer" in Paginate(content).value[i].embed
    ensures Prop(Paginate(content).value[i].embed["footer"], "text")
            == Str(Counter(i + 1, |Paginate(content).value|) + s)
  {
    PaginatedPage(content, i);
  }

  const CounterPrefix := "\U{300E} Page "
  const CounterSuffix := " \U{300F}"

  /** Where `c` first occurs in `s`. */
  function FirstIndex(s: string, c: char): (r: nat)
    requires c in s
    ensures r < |s| && s[r] == c
    decreases |s|
  {
    if s[0] == c then 0 else 1 + FirstIndex(s[1..], c)
  }

  lemma {:induction false} FirstIndexAfter(a: string, c: char, b: string)
    requires c !in a
    ensures FirstIndex(a + [c] + b, c) == |a|
    decreases |a|
  {
    if a != [] {
      assert (a + [c] + b)[1..] == a[1..] + [c] + b;
      FirstIndexAfter(a[1..], c, b);
    }
  }

  /** `a + [c] + b` splits uniquely at a `c` that `a` does not contain. */
  lemma SplitAt(a: string, b: string, a': string, b': string, c: char)
    requires c !in a && c !in a'
    requires a + [c] + b == a' + [c] + b'
    ensures a == a' && b == b'
  {
    FirstIndexAfter(a, c, b);
    FirstIndexAfter(a', c, b');
    var s := a + [c] + b;
    assert a == s[..|a|] == a';
    assert b == s[|a| + 1..] == b';
  }

  /** The counter names its page and page count unambiguously. */
  lemma CounterInjective(i: nat, n: nat, j: nat, m: nat)
    requires Counter(i, n) == Counter(j, m)
    ensures i == j && n == m
  {
    var x := NatStr(i) + ['/'] + NatStr(n);
    var y := NatStr(j) + ['/'] + NatStr(m);
    assert Counter(i, n) == CounterPrefix + x + CounterSuffix;
    assert Counter(j, m) == CounterPrefix + y + CounterSuffix;
    var k := |CounterPrefix|;
    assert x == Counter(i, n)[k..|Counter(i, n)| - |CounterSuffix|];
    assert y == Counter(j, m)[k..|Counter(j, m)| - |CounterSuffix|];
    SplitAt(NatStr(i), NatStr(n), NatStr(j), NatStr(m), '/');
    NatStrInjective(i, j);
    NatStrInjective(n, m);
  }

  /** A paged post of three empty pages under the parent footer text "Hello". */
  const HelloPost: map<string, Value> :=
    map["pages" := Arr([BlankPage, BlankPage, BlankPage]),
        "data" := Obj(HelloData),
        "footer" := HelloFooter]

  const BlankPage: Value := Obj(map["data" := Obj(map[])])
  const HelloData: map<string, Value> := map["title" := Str("Help")]
  const HelloFooter: Value := Obj(map["text" := Str("Hello")])

  /** The parent `HelloPost` describes. */
  lemma HelloParent()
    ensures ParseParent(HelloPost)
            == Ok(Parent(Obj(HelloData), [BlankPage, BlankPage, BlankPage], HelloFooter, Undefined))
  {
  }

  /** An empty page under `HelloPost` inherits the title and nothing fails. */
  lemma BlankInherits()
    ensures Inherit(HelloData, map[]) == Ok(HelloData)
  {
    var r := Inherit(HelloData, map[]);
    assert !FieldsFail(HelloData, map[]);
    assert KeyStep("title", Str("Help"), Get(map[], "title")) == Ok(Str("Help"));
    assert r.value.Keys == {"title"} && r.value["title"] == Str("Help");
    assert r.value == HelloData;
  }

  /** Each page of `HelloPost` is the title with its footer. */
  lemma HelloPage(i: nat)
    requires i < 3
    ensures NormalizedPage(ParseParent(HelloPost).value, i) == Ok(WithFooter(HelloData, HelloFooter, i, 3))
  {
    HelloParent();
    BlankInherits();
    var p := ParseParent(HelloPost).value;
    assert PageData(p.pages[i]) == Ok(map[]);
  }

  /** `HelloPost` paginates into three payloads. */
  lemma HelloPaginates()
    ensures Paginate(HelloPost).Ok? && |Paginate(HelloPost).value| == 3
  {
    HelloParent();
    var p := ParseParent(HelloPost).value;
    HelloPage(0);
    HelloPage(1);
    HelloPage(2);
    NormalizedPagesAt(p, 0);
  }

  /** The footer text of page 2 of 3 under the parent text "Hello". */
  lemma CounterTwoOfThree()
    ensures Counter(2, 3) + "Hello" == "\U{300E} Page 2/3 \U{300F}Hello"
  {
    assert NatStr(2) == "2" && NatStr(3) == "3";
  }

  lemma HelloFooterText()
    ensures Prop(Get(HelloPost, "footer"), "text") == Str("Hello")
  {
  }

  /** A worked case: the second of the three pages of `HelloPost` inherits the title and
      shows the counter followed directly by the parent text. */
  lemma SecondOfThree()
    ensures Paginate(HelloPost).Ok? && |Paginate(HelloPost).value| == 3
    ensures Get(Paginate(HelloPost).value[1].embed, "title") == Str("Help")
    ensures "footer" in Paginate(HelloPost).value[1].embed
    ensures Prop(Paginate(HelloPost).value[1].embed["footer"], "text")
            == Str("\U{300E} Page 2/3 \U{300F}Hello")
  {
    HelloPaginates();
    var payloads := Paginate(HelloPost).value;
    PaginatedPage(HelloPost, 1);
    HelloPage(1);
    assert payloads[1].embed == WithFooter(HelloData, HelloFooter, 1, 3);
    assert "title" in HelloData;
    HelloFooterText();
    TextFooters(HelloPost, 1, "Hello");
    assert Prop(payloads[1].embed["footer"], "text") == Str(Counter(2, 3) + "Hello");
    CounterTwoOfThree();
  }
}
