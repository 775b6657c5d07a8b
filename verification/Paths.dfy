/** Slash-separated paths, lexically cleaned and joined. */
module Paths {

  // ----- Elements of a path -----

  /** The elements between the slashes. */
  function Split(s: string): (r: seq<string>)
    ensures r != []
  {
    if s == "" then [""]
    else
      var rest := Split(s[1..]);
      if s[0] == '/' then [""] + rest else [[s[0]] + rest[0]] + rest[1..]
  }

  function Render(elements: seq<string>): string {
    if elements == [] then ""
    else if |elements| == 1 then elements[0]
    else elements[0] + "/" + Render(elements[1..])
  }

  lemma {:induction false} SplitConcat(a: string, b: string)
    ensures Split(a + "/" + b) == Split(a) + Split(b)
  {
    if a == "" {
      assert (a + "/" + b)[1..] == b;
    } else {
      assert (a + "/" + b)[1..] == a[1..] + "/" + b;
      SplitConcat(a[1..], b);
    }
  }

  lemma {:induction false} SplitOne(e: string)
    requires '/' !in e
    ensures Split(e) == [e]
  {
    if e != "" {
      SplitOne(e[1..]);
      assert e[0] in e && [e[0]] + e[1..] == e;
    }
  }

  lemma {:induction false} SplitRender(elements: seq<string>)
    requires elements != [] && forall i :: 0 <= i < |elements| ==> '/' !in elements[i]
    ensures Split(Render(elements)) == elements
  {
    if |elements| == 1 {
      SplitOne(elements[0]);
    } else {
      var head, tail := elements[0], elements[1..];
      assert [head] + tail == elements;
      SplitRender(tail);
      SplitOne(head);
      SplitConcat(head, Render(tail));
    }
  }

  lemma {:induction false} RenderSplit(s: string)
    ensures Render(Split(s)) == s
  {
    if s != "" {
      RenderSplit(s[1..]);
      var rest := Split(s[1..]);
      if s[0] == '/' {
        assert ([""] + rest)[1..] == rest;
      } else {
        assert ([[s[0]] + rest[0]] + rest[1..])[1..] == rest[1..];
      }
      assert [s[0]] + s[1..] == s;
    }
  }

  lemma {:induction false} RenderConcat(a: seq<string>, b: seq<string>)
    requires a != [] && b != []
    ensures Render(a + b) == Render(a) + "/" + Render(b)
  {
    if |a| == 1 {
      assert (a + b)[1..] == b;
    } else {
      RenderConcat(a[1..], b);
      assert (a + b)[1..] == a[1..] + b;
    }
  }

  lemma {:induction false} SplitHasNoSlash(s: string)
    ensures forall i :: 0 <= i < |Split(s)| ==> '/' !in Split(s)[i]
  {
    if s != "" {
      SplitHasNoSlash(s[1..]);
    }
  }

  // ----- Cleaning -----

  /** One more element: empty ones and "." are dropped, ".." takes back the one before where there is one. */
  function Push(stack: seq<string>, e: string, rooted: bool): seq<string> {
    if e == "" || e == "." then stack
    else if e != ".." then stack + [e]
    else if stack != [] && stack[|stack| - 1] != ".." then stack[..|stack| - 1]
    else if rooted then stack
    else stack + [e]
  }

  function Reduce(elements: seq<string>, rooted: bool): seq<string> {
    if elements == [] then [] else Push(Reduce(elements[..|elements| - 1], rooted), elements[|elements| - 1], rooted)
  }

  function Clean(s: string): (r: string)
    ensures r != ""
  {
    var rooted := s != "" && s[0] == '/';
    var body := Render(Reduce(Split(s), rooted));
    if rooted then "/" + body else if body == "" then "." else body
  }

  function Join(a: string, b: string): string {
    if a == "" && b == "" then ""
    else if a == "" then Clean(b)
    else if b == "" then Clean(a)
    else Clean(a + "/" + b)
  }

  /** Cleaned elements: ".." only at the beginning of a path that is not rooted. */
  ghost predicate Reduced(stack: seq<string>, rooted: bool) {
    && (forall i :: 0 <= i < |stack| ==> stack[i] != "" && stack[i] != "." && '/' !in stack[i])
    && (forall i :: 0 <= i < |stack| && stack[i] == ".." ==> !rooted)
    && (forall i, j :: 0 <= i < j < |stack| && stack[j] == ".." ==> stack[i] == "..")
  }

  lemma {:induction false} ReduceIsReduced(elements: seq<string>, rooted: bool)
    requires forall i :: 0 <= i < |elements| ==> '/' !in elements[i]
    ensures Reduced(Reduce(elements, rooted), rooted)
    decreases |elements|
  {
    if elements != [] {
      ReduceIsReduced(elements[..|elements| - 1], rooted);
    }
  }

  lemma PushReduced(front: seq<string>, last: string, rooted: bool)
    requires Reduced(front + [last], rooted)
    ensures Push(front, last, rooted) == front + [last]
  {
    var all := front + [last];
    assert all[|front|] == last;
    if front != [] {
      assert all[|front| - 1] == front[|front| - 1];
    }
  }

  lemma {:induction false} ReduceAgain(stack: seq<string>, rooted: bool)
    requires Reduced(stack, rooted)
    ensures Reduce(stack, rooted) == stack
    decreases |stack|
  {
    if stack != [] {
      var front, last := stack[..|stack| - 1], stack[|stack| - 1];
      assert stack == front + [last];
      ReduceAgain(front, rooted);
      PushReduced(front, last, rooted);
    }
  }

  /** Empty elements do not count. */
  lemma {:induction false} ReduceSkipsEmpty(before: seq<string>, after: seq<string>, rooted: bool)
    ensures Reduce(before + [""] + after, rooted) == Reduce(before + after, rooted)
    decreases |after|
  {
    if after == [] {
      assert (before + [""] + after)[..|before|] == before && before + after == before;
    } else {
      var front, last := after[..|after| - 1], after[|after| - 1];
      assert before + [""] + after == (before + [""] + front) + [last] && before + after == (before + front) + [last];
      assert ((before + [""] + front) + [last])[..|before| + |after|] == before + [""] + front;
      assert ((before + front) + [last])[..|before| + |front|] == before + front;
      ReduceSkipsEmpty(before, front, rooted);
    }
  }

  /** Below a root it makes no difference whether leading ".." are dropped at once or later. */
  lemma {:induction false} ReduceTwice(elements: seq<string>)
    requires forall i :: 0 <= i < |elements| ==> '/' !in elements[i]
    ensures Reduce(Reduce(elements, false), true) == Reduce(elements, true)
    decreases |elements|
  {
    if elements != [] {
      var front, e := elements[..|elements| - 1], elements[|elements| - 1];
      ReduceTwice(front);
      ReduceIsReduced(front, false);
      PushTwice(Reduce(front, false), e);
    }
  }

  lemma ReduceNext(stack: seq<string>, e: string, rooted: bool)
    ensures Reduce(stack + [e], rooted) == Push(Reduce(stack, rooted), e, rooted)
  {
    assert (stack + [e])[..|stack|] == stack;
  }

  lemma PushTwice(stack: seq<string>, e: string)
    requires Reduced(stack, false)
    ensures Reduce(Push(stack, e, false), true) == Push(Reduce(stack, true), e, true)
  {
    ReduceNext(stack, e, true);
    if e == ".." && stack != [] && stack[|stack| - 1] != ".." {
      var front, last := stack[..|stack| - 1], stack[|stack| - 1];
      ReduceNext(front, last, true);
      assert stack == front + [last];
      var r := Reduce(front, true);
      assert (r + [last])[..|r|] == r;
    }
  }

  lemma RenderEmptiness(stack: seq<string>)
    requires forall i :: 0 <= i < |stack| ==> stack[i] != "" && '/' !in stack[i]
    ensures Render(stack) == "" <==> stack == []
    ensures stack != [] ==> Render(stack)[0] != '/'
  {
    if stack != [] {
      assert Render(stack)[0] == stack[0][0];
      assert stack[0][0] in stack[0];
    }
  }

  // ----- What a path means -----

  /** Where a path leads below a root that it cannot leave. */
  function Elements(s: string): seq<string> {
    Reduce(Split(s), true)
  }

  lemma {:induction false} ElementsOfRendered(stack: seq<string>, rooted: bool)
    requires Reduced(stack, rooted)
    ensures Elements(if rooted then "/" + Render(stack) else if stack == [] then "." else Render(stack)) == Reduce(stack, true)
  {
    RenderEmptiness(stack);
    if stack == [] {
      ElementsOfNothing();
    } else {
      SplitRender(stack);
      if rooted {
        RootedElements(Render(stack));
      }
    }
  }

  lemma ElementsOfNothing()
    ensures Elements("") == [] && Elements("/") == [] && Elements(".") == []
  {
    ReduceNext([], "", true);
    assert [] + [""] == [""];
    RootedElements("");
    assert "/" + "" == "/";
    SplitOne(".");
    ReduceNext([], ".", true);
    assert [] + ["."] == ["."];
  }

  lemma RootedElements(s: string)
    ensures Elements("/" + s) == Elements(s)
  {
    assert ("/" + s)[1..] == s;
    EmptyBefore(Split(s));
  }

  /** Cleaning keeps the meaning of a path. */
  lemma CleanKeepsElements(s: string)
    ensures Elements(Clean(s)) == Elements(s)
  {
    var rooted := s != "" && s[0] == '/';
    var stack := Reduce(Split(s), rooted);
    SplitHasNoSlash(s);
    ReduceIsReduced(Split(s), rooted);
    RenderEmptiness(stack);
    ElementsOfRendered(stack, rooted);
    if rooted {
      ReduceAgain(stack, true);
    } else {
      ReduceTwice(Split(s));
    }
  }

  /** A joined path leads where its parts lead, one after the other. */
  lemma JoinMeaning(a: string, b: string)
    ensures Elements(Join(a, b)) == Reduce(Split(a) + Split(b), true)
  {
    if a == "" {
      EmptyBefore(Split(b));
      if b == "" {
        ElementsOfNothing();
      } else {
        CleanKeepsElements(b);
      }
    } else if b == "" {
      CleanKeepsElements(a);
      EmptyAfter(Split(a));
    } else {
      CleanKeepsElements(a + "/" + b);
      SplitConcat(a, b);
    }
  }

  lemma EmptyBefore(elements: seq<string>)
    ensures Reduce([""] + elements, true) == Reduce(elements, true)
  {
    ReduceSkipsEmpty([], elements, true);
    assert [] + [""] + elements == [""] + elements && [] + elements == elements;
  }

  lemma EmptyAfter(elements: seq<string>)
    ensures Reduce(elements + [""], true) == Reduce(elements, true)
  {
    ReduceSkipsEmpty(elements, [], true);
    assert elements + [""] + [] == elements + [""] && elements + [] == elements;
  }
}
