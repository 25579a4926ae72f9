/**
 * The node forest produced by parsing a minified template as an HTML fragment,
 * and the search for the payload element inside its `template` wrapper
 * (firstChild, main.go:90-102).
 */
module Html {
  import opened Bytes
  import opened Wrappers

  /**
   * A parsed node. The parser's FirstChild/NextSibling chain is the sequence
   * `children`; attributes and the other node types play no part in the search.
   */
  datatype Node =
    | Element(tag: Bytes, children: seq<Node>)
    | Text(data: Bytes)
    | Comment(data: Bytes)

  /** The tag of the wrapper element. */
  const TemplateTag: Bytes := Ascii("template")

  predicate IsTemplate(n: Node) {
    n.Element? && n.tag == TemplateTag
  }

  /** Some child of `n` is an element. */
  ghost predicate HasElementChild(n: Node) {
    n.Element? && exists k :: 0 <= k < |n.children| && n.children[k].Element?
  }

  /** A top-level node the search can take its result from. */
  ghost predicate IsUsableTemplate(n: Node) {
    IsTemplate(n) && HasElementChild(n)
  }

  /** The first element among `children`, text and comment nodes skipped (main.go:93-97). */
  function FirstElement(children: seq<Node>): (r: Option<Node>)
    ensures r.Some? ==> r.value.Element? && r.value in children
    ensures r.None? <==> forall k :: 0 <= k < |children| ==> !children[k].Element?
  {
    if children == [] then None
    else if children[0].Element? then Some(children[0])
    else FirstElement(children[1..])
  }

  /**
   * The result of firstChild: the first element child of the first top-level
   * `template` element that has one. A wrapper without element children is
   * passed over and the scan goes on (main.go:91-99).
   */
  function FirstChild(nodes: seq<Node>): (r: Option<Node>)
    ensures r.Some? ==> r.value.Element?
  {
    if nodes == [] then None
    else if IsTemplate(nodes[0]) && FirstElement(nodes[0].children).Some? then
      FirstElement(nodes[0].children)
    else FirstChild(nodes[1..])
  }

  /**
   * The payload sits at child `j` of top-level node `i`: node `i` is a
   * `template` element, child `j` is an element, every earlier child is text or
   * a comment, and no earlier top-level node is a `template` with an element child.
   */
  ghost predicate IsPayloadAt(nodes: seq<Node>, i: int, j: int) {
    0 <= i < |nodes| && IsTemplate(nodes[i]) &&
    0 <= j < |nodes[i].children| && nodes[i].children[j].Element? &&
    (forall k :: 0 <= k < j ==> !nodes[i].children[k].Element?) &&
    (forall k :: 0 <= k < i ==> !IsUsableTemplate(nodes[k]))
  }

  /** The element FirstElement finds sits at an index with only non-elements before it. */
  lemma {:induction false} FirstElementAt(children: seq<Node>)
    requires FirstElement(children).Some?
    ensures exists j :: 0 <= j < |children| && children[j] == FirstElement(children).value &&
                        (forall k :: 0 <= k < j ==> !children[k].Element?)
  {
    if !children[0].Element? {
      FirstElementAt(children[1..]);
      var j :| 0 <= j < |children[1..]| && children[1..][j] == FirstElement(children[1..]).value &&
        forall k :: 0 <= k < j ==> !children[1..][k].Element?;
      assert children[j + 1] == FirstElement(children).value;
      assert forall k :: 0 <= k < j + 1 ==> !children[k].Element? by {
        forall k | 0 <= k < j + 1 ensures !children[k].Element? {
          if k > 0 { assert children[k] == children[1..][k - 1]; }
        }
      }
    } else {
      assert children[0] == FirstElement(children).value;
    }
  }

  /** A child at `j` with only non-elements before it is what FirstElement returns. */
  lemma {:induction false} FirstElementOf(children: seq<Node>, j: int)
    requires 0 <= j < |children| && children[j].Element?
    requires forall k :: 0 <= k < j ==> !children[k].Element?
    ensures FirstElement(children) == Some(children[j])
  {
    if j > 0 {
      FirstElementOf(children[1..], j - 1);
    }
  }

  /** firstChild fails exactly when no top-level `template` element has an element child. */
  lemma {:induction false} FirstChildNone(nodes: seq<Node>)
    ensures FirstChild(nodes).None? <==> forall i :: 0 <= i < |nodes| ==> !IsUsableTemplate(nodes[i])
  {
    if nodes != [] {
      FirstChildNone(nodes[1..]);
      if forall i :: 0 <= i < |nodes| ==> !IsUsableTemplate(nodes[i]) {
        assert !IsUsableTemplate(nodes[0]);
        forall i | 0 <= i < |nodes[1..]| ensures !IsUsableTemplate(nodes[1..][i]) {
          assert nodes[1..][i] == nodes[i + 1];
        }
      } else if !IsUsableTemplate(nodes[0]) {
        var i :| 0 <= i < |nodes| && IsUsableTemplate(nodes[i]);
        assert nodes[1..][i - 1] == nodes[i];
      }
    }
  }

  /** Whatever firstChild returns is a payload: an element child of a `template` wrapper, as placed by IsPayloadAt. */
  lemma {:induction false} FirstChildSound(nodes: seq<Node>)
    requires FirstChild(nodes).Some?
    ensures exists i, j :: IsPayloadAt(nodes, i, j) && FirstChild(nodes).value == nodes[i].children[j]
  {
    if IsTemplate(nodes[0]) && FirstElement(nodes[0].children).Some? {
      FirstElementAt(nodes[0].children);
      var j :| 0 <= j < |nodes[0].children| &&
        nodes[0].children[j] == FirstElement(nodes[0].children).value &&
        forall k :: 0 <= k < j ==> !nodes[0].children[k].Element?;
      assert IsPayloadAt(nodes, 0, j);
    } else {
      FirstChildSound(nodes[1..]);
      var rest := nodes[1..];
      var i, j :| IsPayloadAt(rest, i, j) && FirstChild(rest).value == rest[i].children[j];
      assert !IsUsableTemplate(nodes[0]);
      assert forall k :: 1 <= k < i + 1 ==> nodes[k] == rest[k - 1];
      assert IsPayloadAt(nodes, i + 1, j);
    }
  }

  /** Conversely, the payload wherever it sits is what firstChild returns. */
  lemma {:induction false} FirstChildComplete(nodes: seq<Node>, i: int, j: int)
    requires IsPayloadAt(nodes, i, j)
    ensures FirstChild(nodes) == Some(nodes[i].children[j])
  {
    if i == 0 {
      FirstElementOf(nodes[0].children, j);
    } else {
      assert !IsUsableTemplate(nodes[0]);
      assert FirstChild(nodes) == FirstChild(nodes[1..]) by {
        if IsTemplate(nodes[0]) && FirstElement(nodes[0].children).Some? {
          assert HasElementChild(nodes[0]);
          assert false;
        }
      }
      assert IsPayloadAt(nodes[1..], i - 1, j) by {
        assert forall k :: 0 <= k < i - 1 ==> nodes[1..][k] == nodes[k + 1];
      }
      FirstChildComplete(nodes[1..], i - 1, j);
    }
  }

  /** A leading `template` without element children does not stop the scan. */
  lemma SkipsEmptyTemplate(wrapper: Node, rest: seq<Node>)
    requires IsTemplate(wrapper) && !HasElementChild(wrapper)
    ensures FirstChild([wrapper] + rest) == FirstChild(rest)
  {
  }

  /**
   * firstChild as the source runs it: an outer loop over the top-level nodes and,
   * for each `template` element, an inner loop along its children that returns
   * the first element (main.go:90-102). None stands for the panic of line 100.
   */
  method FindFirstChild(nodes: seq<Node>) returns (child: Option<Node>)
    ensures child == FirstChild(nodes)
  {
    var i := 0;
    while i < |nodes|
      invariant 0 <= i <= |nodes|
      invariant FirstChild(nodes) == FirstChild(nodes[i..])
    {
      var node := nodes[i];
      assert nodes[i..][1..] == nodes[i + 1..];
      if node.Element? && node.tag == TemplateTag {
        var children := node.children;
        var j := 0;
        while j < |children|
          invariant 0 <= j <= |children|
          invariant FirstElement(children) == FirstElement(children[j..])
        {
          assert children[j..][1..] == children[j + 1..];
          if children[j].Element? {
            return Some(children[j]);
          }
          j := j + 1;
        }
      }
      i := i + 1;
    }
    return None;
  }
}
