/** `_formatFilters`: links each category of the parsed list to its children, in place. */
module Categories {
  import opened Wrappers

  /** One parsed category object; the code only ever writes `sub_categories`. */
  class Category {
    const id: int
    const name: string
    /** `prev_category`, the parent's id (None when the server sends none). */
    const prevCategory: Option<int>
    var subCategories: seq<Category>

    constructor (id: int, name: string, prevCategory: Option<int>)
      ensures this.id == id && this.name == name && this.prevCategory == prevCategory
      ensures subCategories == []
    {
      this.id := id;
      this.name := name;
      this.prevCategory := prevCategory;
      subCategories := [];
    }
  }

  /** `arr.filter(el => id === el.prev_category)`. */
  function Children(arr: seq<Category>, id: int): (r: seq<Category>)
    ensures |r| <= |arr|
  {
    if arr == [] then []
    else (if arr[0].prevCategory == Some(id) then [arr[0]] else []) + Children(arr[1..], id)
  }

  /** The children keep the order of the input list. */
  lemma {:induction false} ChildrenConcat(a: seq<Category>, b: seq<Category>, id: int)
    ensures Children(a + b, id) == Children(a, id) + Children(b, id)
  {
    if a == [] {
      assert a + b == b;
    } else {
      var head := if a[0].prevCategory == Some(id) then [a[0]] else [];
      assert (a + b)[0] == a[0];
      assert (a + b)[1..] == a[1..] + b;
      ChildrenConcat(a[1..], b, id);
      calc {
        Children(a + b, id);
        head + Children(a[1..] + b, id);
        head + (Children(a[1..], id) + Children(b, id));
        (head + Children(a[1..], id)) + Children(b, id);
        Children(a, id) + Children(b, id);
      }
    }
  }

  /** A category is a child of `id` exactly when it is in the list and names `id` as its parent. */
  lemma {:induction false} ChildrenMembership(arr: seq<Category>, id: int, c: Category)
    ensures c in Children(arr, id) <==> c in arr && c.prevCategory == Some(id)
  {
    if arr != [] {
      ChildrenMembership(arr[1..], id, c);
      assert arr == [arr[0]] + arr[1..];
    }
  }

  /** Where `arr.find(main => main.id == id)` finds its category: the first one with that id, or -1 when `find` gives undefined. */
  function FirstWithId(arr: seq<Category>, id: int): (i: int)
    ensures -1 <= i < |arr|
    ensures 0 <= i ==> arr[i].id == id
    ensures forall j :: 0 <= j < |arr| && (i == -1 || j < i) ==> arr[j].id != id
  {
    if arr == [] then -1
    else if arr[0].id == id then 0
    else
      var k := FirstWithId(arr[1..], id);
      if k == -1 then -1 else k + 1
  }

  /** The category `_formatFilters` returns: the one with id `parent` when `parent` is set, else the first. */
  function Root(arr: seq<Category>, parent: int): (r: Option<Category>)
    ensures parent != 0 && r.Some? ==> r.value in arr && r.value.id == parent
    ensures parent != 0 && r.None? ==> forall c :: c in arr ==> c.id != parent
    ensures parent == 0 ==> r == if arr == [] then None else Some(arr[0])
  {
    if parent != 0 then
      var i := FirstWithId(arr, parent);
      if i < 0 then None else Some(arr[i])
    else if arr == [] then None
    else Some(arr[0])
  }

  /** `_formatFilters(arr, parent)`: set every category's children, then pick the root. */
  method FormatFilters(arr: seq<Category>, parent: int) returns (root: Option<Category>)
    modifies set c | c in arr
    ensures forall j :: 0 <= j < |arr| ==> arr[j].subCategories == Children(arr, arr[j].id)
    ensures root == Root(arr, parent)
  {
    var i := 0;
    while i < |arr|
      invariant 0 <= i <= |arr|
      invariant forall j :: 0 <= j < i ==> arr[j].subCategories == Children(arr, arr[j].id)
    {
      var c := arr[i];
      var kids := Children(arr, c.id);
      c.subCategories := kids;
      i := i + 1;
    }
    root := Root(arr, parent);
  }
}
