/** Small shared vocabulary: an optional value (JavaScript's `undefined` / `null`
    and the `?.` operator) and the keyed listing that React's `xs.map((x, index) => ...)`
    renders. */
module Common {

  /** `None` stands for JavaScript's `undefined` or `null`. */
  datatype Option<+T> = None | Some(value: T)

  /** How a call into code outside this model (a service, a browser library)
      resolved: its promise fulfilled or rejected. */
  datatype Outcome = Succeeded | Failed

  /** One rendered list entry: React key `index` and the text shown. */
  datatype Entry<+T> = Entry(key: nat, item: T)

  /** `xs.map((x, index) => <div key={index}>{x}</div>)`: one entry per element,
      keyed by its position. */
  function Listing<T>(xs: seq<T>): (r: seq<Entry<T>>)
    ensures |r| == |xs|
    ensures forall i :: 0 <= i < |xs| ==> r[i] == Entry(i, xs[i])
  {
    seq(|xs|, i requires 0 <= i < |xs| => Entry(i, xs[i]))
  }

  /** Reading the texts back out of a listing gives the input list again. */
  function Texts<T>(entries: seq<Entry<T>>): (r: seq<T>)
    ensures |r| == |entries|
    ensures forall i :: 0 <= i < |entries| ==> r[i] == entries[i].item
  {
    seq(|entries|, i requires 0 <= i < |entries| => entries[i].item)
  }

  /** Every element is listed exactly once, in input order, under a distinct key. */
  lemma ListingRoundTrip<T>(xs: seq<T>)
    ensures Texts(Listing(xs)) == xs
    ensures forall i, j :: 0 <= i < j < |xs| ==> Listing(xs)[i].key != Listing(xs)[j].key
  {
  }

  /** One navigation link: its id, the text shown and the route path it leads to
      (`icon` is presentation and left out). */
  datatype NavItem = NavItem(id: string, caption: string, path: string)
}
