/** The per-item step of `get_items_details`: a nested search result becomes a
    flat record holding only the recognised, truthy fields. */
module Extractor {
  import opened Json

  const ImageBaseUrl: string := "https://c1.neweggimages.com/ProductImageCompressAll300/"

  /** The CSV header, and every key a record may carry. */
  const FieldNames: seq<string> := ["product_title", "line_description", "bullet_description",
                                    "product_final_price", "product_rating", "product_seller_name",
                                    "product_image_url"]

  /** A flat product record: a dict from field name to the copied value. */
  type Record = map<string, Json>

  /** The source paths of the copied values and of the image name. */
  const TitlePath: seq<string> := ["Description", "Title"]
  const LinePath: seq<string> := ["Description", "LineDescription"]
  const BulletPath: seq<string> := ["Description", "BulletDescription"]
  const PricePath: seq<string> := ["FinalPrice"]
  const RatingPath: seq<string> := ["Review", "Rating"]
  const SellerPath: seq<string> := ["Seller", "SellerName"]

  const ImagePath: seq<string> := ["NewImage", "ImageName"]

  /** A value `.get` may be called on after a truthiness test: a dict, or anything falsy. */
  predicate DictOrFalsy(j: Json) {
    Truthy(j) ==> j.JObj?
  }

  /** The items the per-item step handles without raising: the item is a dict, each
      truthy value the code calls `.get` on (Description, Review, Seller, NewImage) is a
      dict, and a truthy image name is a string. */
  predicate WellShaped(item: Json) {
    && item.JObj?
    && DictOrFalsy(PyGet(item.fields, "Description"))
    && DictOrFalsy(PyGet(item.fields, "Review"))
    && DictOrFalsy(PyGet(item.fields, "Seller"))
    && DictOrFalsy(PyGet(item.fields, "NewImage"))
    && (Truthy(Lookup(item, ImagePath)) ==> Lookup(item, ImagePath).JStr?)
  }

  /** The record holds `key` exactly when the value at `path` is truthy, and then holds that value. */
  predicate CopiesPath(item: Json, details: Record, key: string, path: seq<string>) {
    && (key in details <==> Truthy(Lookup(item, path)))
    && (key in details ==> details[key] == Lookup(item, path))
  }

  /** `if value := ...: details[key] = value` */
  function SetIfTruthy(details: Record, key: string, value: Json): (r: Record)
    ensures r.Keys == if Truthy(value) then details.Keys + {key} else details.Keys
  {
    if Truthy(value) then details[key := value] else details
  }

  /** The value `.get(child)` finds in a dict, None when `parent` is not one. */
  lemma ChildLookup(parent: Json, child: string)
    ensures Lookup(parent, [child]) == if parent.JObj? then PyGet(parent.fields, child) else JNull
  {
    if parent.JObj? && child in parent.fields {
      assert [child][1..] == [];
    }
  }

  /** A two-step path goes through the value `.get(parent)` returns. */
  lemma PathLookup(item: Json, parent: string, child: string)
    requires item.JObj?
    ensures Lookup(item, [parent, child]) == Lookup(PyGet(item.fields, parent), [child])
  {
    assert [parent, child][1..] == [child];
    ChildLookup(PyGet(item.fields, parent), child);
  }

  /** The "Description" block: title, line description and bullet description. */
  function WithDescription(details: Record, description: Json): (r: Result<Record, PyError>)
    ensures r.Success? <==> DictOrFalsy(description)
    ensures r.Failure? ==> r.error == AttributeError
    ensures r.Success? ==>
              r.value == SetIfTruthy(SetIfTruthy(SetIfTruthy(details,
                           "product_title", Lookup(description, ["Title"])),
                           "line_description", Lookup(description, ["LineDescription"])),
                           "bullet_description", Lookup(description, ["BulletDescription"]))
  {
    ChildLookup(description, "Title");
    ChildLookup(description, "LineDescription");
    ChildLookup(description, "BulletDescription");
    if !Truthy(description) then Success(details)
    else if !description.JObj? then Failure(AttributeError)
    else
      var d := SetIfTruthy(details, "product_title", PyGet(description.fields, "Title"));
      var d := SetIfTruthy(d, "line_description", PyGet(description.fields, "LineDescription"));
      Success(SetIfTruthy(d, "bullet_description", PyGet(description.fields, "BulletDescription")))
  }

  /** A block with one copied sub-key, as for "Review" and "Seller". */
  function WithChild(details: Record, parent: Json, child: string, key: string): (r: Result<Record, PyError>)
    ensures r.Success? <==> DictOrFalsy(parent)
    ensures r.Failure? ==> r.error == AttributeError
    ensures r.Success? ==> r.value == SetIfTruthy(details, key, Lookup(parent, [child]))
  {
    ChildLookup(parent, child);
    if !Truthy(parent) then Success(details)
    else if !parent.JObj? then Failure(AttributeError)
    else Success(SetIfTruthy(details, key, PyGet(parent.fields, child)))
  }

  /** The "NewImage" block: the image URL is the base URL followed by the image name. */
  function WithImageUrl(details: Record, image: Json): (r: Result<Record, PyError>)
    ensures r.Success? <==>
              DictOrFalsy(image) && (Truthy(Lookup(image, ["ImageName"])) ==> Lookup(image, ["ImageName"]).JStr?)
    ensures r.Failure? ==>
              (r.error == TypeError <==>
                 image.JObj? && Truthy(Lookup(image, ["ImageName"])) && !Lookup(image, ["ImageName"]).JStr?)
    ensures r.Success? ==>
              r.value == if Truthy(Lookup(image, ["ImageName"]))
                         then details["product_image_url" := JStr(ImageBaseUrl + Lookup(image, ["ImageName"]).s)]
                         else details
  {
    ChildLookup(image, "ImageName");
    if !Truthy(image) then Success(details)
    else if !image.JObj? then Failure(AttributeError)
    else
      var name := PyGet(image.fields, "ImageName");
      if !Truthy(name) then Success(details)
      else if !name.JStr? then Failure(TypeError)
      else Success(details["product_image_url" := JStr(ImageBaseUrl + name.s)])
  }

  /** The first four blocks of the loop body in `get_items_details`: description,
      final price, review and seller. */
  function CopiedDetails(fields: map<string, Json>): Result<Record, PyError> {
    var details :- WithDescription(map[], PyGet(fields, "Description"));
    var details := SetIfTruthy(details, "product_final_price", PyGet(fields, "FinalPrice"));
    var details :- WithChild(details, PyGet(fields, "Review"), "Rating", "product_rating");
    WithChild(details, PyGet(fields, "Seller"), "SellerName", "product_seller_name")
  }

  /** The body of the loop in `get_items_details` for one item: the record, or the
      exception the first failing `.get` or concatenation raises. */
  function ItemDetails(item: Json): Result<Record, PyError> {
    if !item.JObj? then Failure(AttributeError)
    else
      var details :- CopiedDetails(item.fields);
      WithImageUrl(details, PyGet(item.fields, "NewImage"))
  }

  /** The per-item step raises exactly on items that are not well shaped. It raises a
      TypeError exactly when the item's only fault is a truthy image name that is not a
      string, and an AttributeError for every other fault. */
  lemma ItemDetailsFailsIff(item: Json)
    ensures ItemDetails(item).Success? <==> WellShaped(item)
    ensures ItemDetails(item).Failure? ==>
              (ItemDetails(item).error == TypeError <==>
                 && item.JObj?
                 && DictOrFalsy(PyGet(item.fields, "Description"))
                 && DictOrFalsy(PyGet(item.fields, "Review"))
                 && DictOrFalsy(PyGet(item.fields, "Seller"))
                 && Truthy(Lookup(item, ImagePath)) && !Lookup(item, ImagePath).JStr?)
  {
    if item.JObj? {
      PathLookup(item, "NewImage", "ImageName");
      var fields := item.fields;
      var d1 := WithDescription(map[], PyGet(fields, "Description"));
      if d1.Success? {
        var d2 := SetIfTruthy(d1.value, "product_final_price", PyGet(fields, "FinalPrice"));
        var d3 := WithChild(d2, PyGet(fields, "Review"), "Rating", "product_rating");
        if d3.Success? {
          var d4 := WithChild(d3.value, PyGet(fields, "Seller"), "SellerName", "product_seller_name");
          if d4.Success? {
            assert CopiedDetails(fields) == d4;
          }
        }
      }
    }
  }

  /** Setting a new key from the value at `path` makes the record copy that path,
      and keeps what the record says about every other key. */
  lemma SetStage(item: Json, details: Record, key: string, path: seq<string>)
    requires key !in details
    ensures var r := SetIfTruthy(details, key, Lookup(item, path));
            && CopiesPath(item, r, key, path)
            && r.Keys <= details.Keys + {key}
            && forall k, p | CopiesPath(item, details, k, p) && k != key :: CopiesPath(item, r, k, p)
  {
  }

  /** A one-key block, read as setting its key from the two-step path. */
  lemma ChildStage(item: Json, details: Record, parent: string, child: string, key: string)
    requires item.JObj? && DictOrFalsy(PyGet(item.fields, parent))
    ensures WithChild(details, PyGet(item.fields, parent), child, key)
         == Success(SetIfTruthy(details, key, Lookup(item, [parent, child])))
  {
    PathLookup(item, parent, child);
  }

  /** The description block copies its three paths into an empty record. */
  lemma DescriptionCopies(item: Json)
    requires item.JObj? && DictOrFalsy(PyGet(item.fields, "Description"))
    ensures var d := WithDescription(map[], PyGet(item.fields, "Description"));
            && d.Success?
            && d.value.Keys <= {"product_title", "line_description", "bullet_description"}
            && CopiesDescription(item, d.value)
  {
    PathLookup(item, "Description", "Title");
    PathLookup(item, "Description", "LineDescription");
    PathLookup(item, "Description", "BulletDescription");
    var a := SetIfTruthy(map[], "product_title", Lookup(item, TitlePath));
    SetStage(item, map[], "product_title", TitlePath);
    var b := SetIfTruthy(a, "line_description", Lookup(item, LinePath));
    SetStage(item, a, "line_description", LinePath);
    SetStage(item, b, "bullet_description", BulletPath);
  }

  /** The keys the last three copied blocks set differ from every key set before them. */
  lemma KeysDistinct()
    ensures "product_final_price" !in {"product_title", "line_description", "bullet_description"}
    ensures "product_rating" !in {"product_title", "line_description", "bullet_description",
                                  "product_final_price"}
    ensures "product_seller_name" !in {"product_title", "line_description", "bullet_description",
                                       "product_final_price", "product_rating"}
  {
    // Literals of equal length differ only at some index; these name one for the solver.
    assert "product_seller_name"[8] != "product_final_price"[8];
    assert "product_final_price"[8] != "product_title"[8];
  }

  /** The record copies the three description paths. */
  predicate CopiesDescription(item: Json, details: Record) {
    && CopiesPath(item, details, "product_title", TitlePath)
    && CopiesPath(item, details, "line_description", LinePath)
    && CopiesPath(item, details, "bullet_description", BulletPath)
  }

  /** The record copies each of the six source paths to its key. */
  predicate CopiesAll(item: Json, details: Record) {
    && CopiesDescription(item, details)
    && CopiesPath(item, details, "product_final_price", PricePath)
    && CopiesPath(item, details, "product_rating", RatingPath)
    && CopiesPath(item, details, "product_seller_name", SellerPath)
  }

  /** The final-price block adds its key to what the description block set. */
  lemma PriceStage(item: Json, details: Record)
    requires item.JObj?
    requires details.Keys <= {"product_title", "line_description", "bullet_description"}
    requires CopiesDescription(item, details)
    ensures var r := SetIfTruthy(details, "product_final_price", PyGet(item.fields, "FinalPrice"));
            && r.Keys <= {"product_title", "line_description", "bullet_description", "product_final_price"}
            && CopiesDescription(item, r)
            && CopiesPath(item, r, "product_final_price", PricePath)
  {
    KeysDistinct();
    ChildLookup(item, "FinalPrice");
    SetStage(item, details, "product_final_price", PricePath);
  }

  /** The review block adds its key to what the first two blocks set. */
  lemma ReviewStage(item: Json, details: Record)
    requires item.JObj? && DictOrFalsy(PyGet(item.fields, "Review"))
    requires details.Keys <= {"product_title", "line_description", "bullet_description", "product_final_price"}
    requires CopiesDescription(item, details) && CopiesPath(item, details, "product_final_price", PricePath)
    ensures var r := WithChild(details, PyGet(item.fields, "Review"), "Rating", "product_rating");
            && r.Success?
            && r.value.Keys <= {"product_title", "line_description", "bullet_description",
                                "product_final_price", "product_rating"}
            && CopiesDescription(item, r.value)
            && CopiesPath(item, r.value, "product_final_price", PricePath)
            && CopiesPath(item, r.value, "product_rating", RatingPath)
  {
    KeysDistinct();
    ChildStage(item, details, "Review", "Rating", "product_rating");
    SetStage(item, details, "product_rating", RatingPath);
  }

  /** The seller block adds its key to what the first three blocks set. */
  lemma SellerStage(item: Json, details: Record)
    requires item.JObj? && DictOrFalsy(PyGet(item.fields, "Seller"))
    requires details.Keys <= {"product_title", "line_description", "bullet_description",
                              "product_final_price", "product_rating"}
    requires CopiesDescription(item, details) && CopiesPath(item, details, "product_final_price", PricePath)
    requires CopiesPath(item, details, "product_rating", RatingPath)
    ensures var r := WithChild(details, PyGet(item.fields, "Seller"), "SellerName", "product_seller_name");
            && r.Success?
            && r.value.Keys <= {"product_title", "line_description", "bullet_description",
                                "product_final_price", "product_rating", "product_seller_name"}
            && CopiesAll(item, r.value)
  {
    KeysDistinct();
    ChildStage(item, details, "Seller", "SellerName", "product_seller_name");
    SetStage(item, details, "product_seller_name", SellerPath);
  }

  /** The first four blocks copy the six source paths and set no other key. */
  lemma CopiedDetailsCopies(item: Json)
    requires WellShaped(item)
    ensures var d := CopiedDetails(item.fields);
            && d.Success?
            && d.value.Keys <= {"product_title", "line_description", "bullet_description",
                                "product_final_price", "product_rating", "product_seller_name"}
            && CopiesAll(item, d.value)
  {
    var fields := item.fields;
    DescriptionCopies(item);
    var d1 := WithDescription(map[], PyGet(fields, "Description")).value;
    PriceStage(item, d1);
    var d2 := SetIfTruthy(d1, "product_final_price", PyGet(fields, "FinalPrice"));
    ReviewStage(item, d2);
    var d3 := WithChild(d2, PyGet(fields, "Review"), "Rating", "product_rating").value;
    SellerStage(item, d3);
  }

  /** The image block adds only the image URL, built from the image name. */
  lemma ImageStage(item: Json, details: Record)
    requires WellShaped(item)
    requires details.Keys <= {"product_title", "line_description", "bullet_description",
                              "product_final_price", "product_rating", "product_seller_name"}
    ensures var r := WithImageUrl(details, PyGet(item.fields, "NewImage"));
            && r.Success?
            && r.value.Keys <= details.Keys + {"product_image_url"}
            && (forall key | key in details :: key in r.value && r.value[key] == details[key])
            && (forall key | key in r.value :: key in FieldNames)
            && ("product_image_url" in r.value <==> Truthy(Lookup(item, ImagePath)))
            && ("product_image_url" in r.value ==>
                  r.value["product_image_url"] == JStr(ImageBaseUrl + Lookup(item, ImagePath).s))
  {
    PathLookup(item, "NewImage", "ImageName");
  }

  /** On a well-shaped item: each copied key is present iff its source value is truthy,
      and then equals it; the image URL is present iff the image name is truthy, and then
      is the base URL followed by that name; every key is a CSV field name. */
  lemma ItemDetailsFields(item: Json)
    requires WellShaped(item)
    ensures ItemDetails(item).Success?
    ensures CopiesAll(item, ItemDetails(item).value)
    ensures var details := ItemDetails(item).value;
            && ("product_image_url" in details <==> Truthy(Lookup(item, ImagePath)))
            && ("product_image_url" in details ==>
                  details["product_image_url"] == JStr(ImageBaseUrl + Lookup(item, ImagePath).s))
    ensures forall key | key in ItemDetails(item).value :: key in FieldNames
  {
    CopiedDetailsCopies(item);
    var d4 := CopiedDetails(item.fields).value;
    ImageStage(item, d4);
    var d5 := WithImageUrl(d4, PyGet(item.fields, "NewImage")).value;
    assert ItemDetails(item) == Success(d5);
    assert CopiesAll(item, d5);
  }
}
