/**
  The compliance service's `predict` endpoint (NLP/flask_app/app.py): it
  validates the request body, turns each product into one lower-cased text,
  has the model assign one class index per text and maps the indices to
  labels. The tokenizer and the model are a function parameter.
 */
module Compliance {
  import opened Wrappers
  import opened Text

  /** A parsed JSON request body, as Python sees it after `get_json`. */
  datatype Json =
    | JNull
    | JBool(b: bool)
    | JNumber(n: int)
    | JString(s: string)
    | JArray(items: seq<Json>)
    | JObject(fields: map<string, Json>)

  datatype ReplyBody =
    | ErrorReply(error: string)
    | Predictions(predictions: seq<string>)
    /** An exception `predict` does not catch: Flask answers with its own error page. */
    | Uncaught

  datatype Reply = Reply(status: int, body: ReplyBody)

  const ProductsKey := "products"
  const NoProductsMessage := "No products found in the request"
  const NotAListMessage := "Products should be a list"
  const UncaughtReply := Reply(500, Uncaught)

  /** The product fields that make up a product's text, in order. */
  const ProductFields: seq<string> := ["product_name", "brand", "nutritional_info", "expiration_date", "regulatory_notes"]

  const Compliant := "compliant"
  const NotCompliant := "not compliant"

  // ---------------------------------------------------------------- validation

  /** `sub` occurs in `s` at some position (Python's `sub in s` on strings). */
  predicate HasSubstring(s: string, sub: string) {
    exists i | 0 <= i <= |s| :: sub <= s[i..]
  }

  /**
    Python's `key in data`: a key of a dict, an element of a list, a
    substring of a string; None where Python raises a TypeError (null,
    booleans, numbers).
   */
  function PyIn(key: string, data: Json): Option<bool> {
    match data
    case JObject(fields) => Some(key in fields)
    case JArray(items) => Some(JString(key) in items)
    case JString(s) => Some(HasSubstring(s, key))
    case _ => None
  }

  // ---------------------------------------------------------------- product texts

  /** `product.get(key, '')`. */
  function Get(fields: map<string, Json>, key: string): Json {
    if key in fields then fields[key] else JString("")
  }

  /** `" ".join(parts)`. */
  function Join(parts: seq<string>): string
    decreases |parts|
  {
    if |parts| == 0 then ""
    else if |parts| == 1 then parts[0]
    else parts[0] + " " + Join(parts[1..])
  }

  /**
    The text of one product: its five fields (a missing one read as the
    empty string) joined by single spaces and lower-cased; None when the
    product is not a dict or one of its fields is not a string, where the
    concatenation raises.
   */
  function ProductText(product: Json): Option<string> {
    if product.JObject? && forall k | k in ProductFields :: Get(product.fields, k).JString? then
      Some(Lower(Join(seq(|ProductFields|, i requires 0 <= i < |ProductFields| => Get(product.fields, ProductFields[i]).s))))
    else
      None
  }

  lemma JoinFive(a: string, b: string, c: string, d: string, e: string)
    ensures Join([a, b, c, d, e]) == a + " " + b + " " + c + " " + d + " " + e
  {
    assert [a, b, c, d, e][1..] == [b, c, d, e];
    assert [b, c, d, e][1..] == [c, d, e];
    assert [c, d, e][1..] == [d, e];
    assert [d, e][1..] == [e];
    assert Join([d, e]) == d + " " + e;
    assert Join([c, d, e]) == c + " " + (d + " " + e);
    assert Join([b, c, d, e]) == b + " " + (c + " " + (d + " " + e));
    assert Join([a, b, c, d, e]) == a + " " + (b + " " + (c + " " + (d + " " + e)));
  }

  /**
    The text-assembly loop: one lower-cased text per product, in product
    order; None when some product makes the concatenation raise.
   */
  method TextInputs(products: seq<Json>) returns (textInputs: Option<seq<string>>)
    ensures textInputs.Some? <==> forall i | 0 <= i < |products| :: ProductText(products[i]).Some?
    ensures textInputs.Some? ==>
              && |textInputs.value| == |products|
              && forall i | 0 <= i < |products| :: textInputs.value[i] == ProductText(products[i]).value
  {
    var texts: seq<string> := [];
    for k := 0 to |products|
      invariant |texts| == k
      invariant forall i | 0 <= i < k :: ProductText(products[i]).Some? && texts[i] == ProductText(products[i]).value
    {
      var product := products[k];
      if !product.JObject? {
        return None;
      }
      var name := Get(product.fields, "product_name");
      var brand := Get(product.fields, "brand");
      var nutrition := Get(product.fields, "nutritional_info");
      var expiry := Get(product.fields, "expiration_date");
      var notes := Get(product.fields, "regulatory_notes");
      if !(name.JString? && brand.JString? && nutrition.JString? && expiry.JString? && notes.JString?) {
        assert !Get(product.fields, ProductFields[0]).JString? || !Get(product.fields, ProductFields[1]).JString?
            || !Get(product.fields, ProductFields[2]).JString? || !Get(product.fields, ProductFields[3]).JString?
            || !Get(product.fields, ProductFields[4]).JString?;
        return None;
      }
      var textInput := name.s + " " + brand.s + " " + nutrition.s + " " + expiry.s + " " + notes.s;
      JoinFive(name.s, brand.s, nutrition.s, expiry.s, notes.s);
      assert seq(|ProductFields|, i requires 0 <= i < |ProductFields| => Get(product.fields, ProductFields[i]).s)
          == [name.s, brand.s, nutrition.s, expiry.s, notes.s];
      texts := texts + [Lower(textInput)];
    }
    return Some(texts);
  }

  // ---------------------------------------------------------------- splitting a text back

  /** `s.split(" ")`: the pieces between single spaces. */
  function Split(s: string): (r: seq<string>)
    ensures |r| >= 1
    decreases |s|
  {
    if |s| == 0 then [""]
    else if s[0] == ' ' then [""] + Split(s[1..])
    else
      var rest := Split(s[1..]);
      [[s[0]] + rest[0]] + rest[1..]
  }

  /** A piece without spaces, followed by a space, is split off whole. */
  lemma {:induction false} SplitPiece(a: string, rest: string)
    requires ' ' !in a
    ensures Split(a + " " + rest) == [a] + Split(rest)
    decreases |a|
  {
    if a == [] {
      assert a + " " + rest == [' '] + rest;
      assert ([' '] + rest)[1..] == rest;
    } else {
      assert (a + " " + rest)[0] == a[0];
      assert (a + " " + rest)[1..] == a[1..] + " " + rest;
      SplitPiece(a[1..], rest);
      assert [a[0]] + a[1..] == a;
    }
  }

  /** A text without spaces is a single piece. */
  lemma {:induction false} SplitWhole(a: string)
    requires ' ' !in a
    ensures Split(a) == [a]
    decreases |a|
  {
    if a != [] {
      SplitWhole(a[1..]);
      assert [a[0]] + a[1..] == a;
    }
  }

  /** Splitting undoes joining when no part contains a space. */
  lemma {:induction false} SplitJoin(parts: seq<string>)
    requires parts != []
    requires forall p | p in parts :: ' ' !in p
    ensures Split(Join(parts)) == parts
    decreases |parts|
  {
    if |parts| == 1 {
      SplitWhole(parts[0]);
    } else {
      assert parts[0] in parts;
      assert forall p | p in parts[1..] :: p in parts;
      SplitJoin(parts[1..]);
      SplitPiece(parts[0], Join(parts[1..]));
    }
  }

  /** Lower-casing a joined text lower-cases each part. */
  lemma {:induction false} LowerJoin(parts: seq<string>)
    ensures Lower(Join(parts)) == Join(seq(|parts|, i requires 0 <= i < |parts| => Lower(parts[i])))
    decreases |parts|
  {
    var lowered := seq(|parts|, i requires 0 <= i < |parts| => Lower(parts[i]));
    if |parts| == 1 {
      assert lowered == [Lower(parts[0])];
    } else if |parts| > 1 {
      LowerJoin(parts[1..]);
      assert lowered[1..] == seq(|parts[1..]|, i requires 0 <= i < |parts[1..]| => Lower(parts[1..][i]));
      LowerConcat(parts[0] + " ", Join(parts[1..]));
      LowerConcat(parts[0], " ");
    }
  }

  /** Lower-casing never makes or removes a space. */
  lemma LowerKeepsSpaces(a: string)
    ensures ' ' in Lower(a) <==> ' ' in a
  {
    LowerSpec(a);
    if ' ' in a {
      var i :| 0 <= i < |a| && a[i] == ' ';
      assert Lower(a)[i] == ' ';
    }
  }

  /**
    The five fields come back out of a product's text: splitting it on
    spaces gives each field lower-cased, a missing field as "", provided no
    field itself contains a space.
   */
  lemma ProductTextSplits(product: Json)
    requires ProductText(product).Some?
    requires forall k | k in ProductFields :: ' ' !in Get(product.fields, k).s
    ensures Split(ProductText(product).value)
         == seq(|ProductFields|, i requires 0 <= i < |ProductFields| => Lower(Get(product.fields, ProductFields[i]).s))
  {
    var parts := seq(|ProductFields|, i requires 0 <= i < |ProductFields| => Get(product.fields, ProductFields[i]).s);
    var lowered := seq(|parts|, i requires 0 <= i < |parts| => Lower(parts[i]));
    LowerJoin(parts);
    forall p | p in lowered
      ensures ' ' !in p
    {
      var i :| 0 <= i < |lowered| && lowered[i] == p;
      assert ProductFields[i] in ProductFields;
      LowerKeepsSpaces(parts[i]);
    }
    SplitJoin(lowered);
  }

  // ---------------------------------------------------------------- labels

  /** The list comprehension over the class indices. */
  function Labels(preds: seq<int>): (labels: seq<string>)
    ensures |labels| == |preds|
    ensures forall i | 0 <= i < |preds| :: labels[i] == Compliant <==> preds[i] == 1
    ensures forall i | 0 <= i < |preds| :: labels[i] == NotCompliant <==> preds[i] != 1
  {
    seq(|preds|, i requires 0 <= i < |preds| => if preds[i] == 1 then Compliant else NotCompliant)
  }

  // ---------------------------------------------------------------- the endpoint

  /**
    `predict`. `classify` stands for the tokenizer and the model together:
    the class index the model assigns to one text.
   */
  method Predict(data: Json, classify: string -> int) returns (reply: Reply)
    ensures PyIn(ProductsKey, data).None? ==> reply == UncaughtReply
    ensures PyIn(ProductsKey, data) == Some(false) ==> reply == Reply(400, ErrorReply(NoProductsMessage))
    ensures PyIn(ProductsKey, data) == Some(true) && !data.JObject? ==> reply == UncaughtReply
    ensures data.JObject? && ProductsKey in data.fields && !data.fields[ProductsKey].JArray? ==>
              reply == Reply(400, ErrorReply(NotAListMessage))
    ensures data.JObject? && ProductsKey in data.fields && data.fields[ProductsKey].JArray? ==>
              var products := data.fields[ProductsKey].items;
              if forall i | 0 <= i < |products| :: ProductText(products[i]).Some? then
                && reply.status == 200 && reply.body.Predictions?
                && |reply.body.predictions| == |products|
                && (forall i | 0 <= i < |products| ::
                      reply.body.predictions[i] == Compliant <==> classify(ProductText(products[i]).value) == 1)
                && (forall i | 0 <= i < |products| ::
                      reply.body.predictions[i] == NotCompliant <==> classify(ProductText(products[i]).value) != 1)
              else
                reply == UncaughtReply
  {
    var present := PyIn(ProductsKey, data);
    if present.None? {
      return UncaughtReply;
    }
    if !present.value {
      return Reply(400, ErrorReply(NoProductsMessage));
    }
    if !data.JObject? {
      return UncaughtReply;
    }
    var products := data.fields[ProductsKey];
    if !products.JArray? {
      return Reply(400, ErrorReply(NotAListMessage));
    }
    var textInputs := TextInputs(products.items);
    if textInputs.None? {
      return UncaughtReply;
    }
    var texts := textInputs.value;
    var preds := seq(|texts|, i requires 0 <= i < |texts| => classify(texts[i]));
    return Reply(200, Predictions(Labels(preds)));
  }
}
