/** The admin product form: its field-by-field edits, the reset of the
    brand when the category changes, the seven validation rules, the
    category-dependent brand list and the record handed on when the form
    is submitted. */
module ProductForm {
  import opened Opt
  import opened Text
  import opened Numbers

  datatype Specifications = Specifications(color: string, weight: string, dimensions: string)

  /** What the form holds: price and stock stay strings until submission. */
  datatype FormData = FormData(
    name: string,
    description: string,
    price: string,
    category: string,
    stock: string,
    brand: string,
    imageUrl: string,
    featured: bool,
    specifications: Specifications)

  const EmptyForm := FormData("", "", "", "", "", "", "", false, Specifications("", "", ""))

  /** The form's inputs, named after their `name` attribute
      ("specifications.color" and so on for the last three). The error map
      is keyed by them. */
  datatype Field =
    | Name | Description | Price | Category | Stock | Brand | ImageUrl | Featured
    | Color | Weight | Dimensions

  /** The value of one field: text, or a flag for the checkbox. */
  datatype Val = Str(text: string) | Flag(on: bool)

  function Read(f: FormData, field: Field): Val
  {
    match field
    case Name => Str(f.name)
    case Description => Str(f.description)
    case Price => Str(f.price)
    case Category => Str(f.category)
    case Stock => Str(f.stock)
    case Brand => Str(f.brand)
    case ImageUrl => Str(f.imageUrl)
    case Featured => Flag(f.featured)
    case Color => Str(f.specifications.color)
    case Weight => Str(f.specifications.weight)
    case Dimensions => Str(f.specifications.dimensions)
  }

  /** Two forms that agree on every field are the same form, so `Read`
      describes a form completely. */
  lemma ReadDetermines(f: FormData, g: FormData)
    requires forall field :: Read(f, field) == Read(g, field)
    ensures f == g
  {
    assert Read(f, Name) == Read(g, Name) && Read(f, Description) == Read(g, Description);
    assert Read(f, Price) == Read(g, Price) && Read(f, Category) == Read(g, Category);
    assert Read(f, Stock) == Read(g, Stock) && Read(f, Brand) == Read(g, Brand);
    assert Read(f, ImageUrl) == Read(g, ImageUrl) && Read(f, Featured) == Read(g, Featured);
    assert Read(f, Color) == Read(g, Color) && Read(f, Weight) == Read(g, Weight);
    assert Read(f, Dimensions) == Read(g, Dimensions);
  }

  /** What a change event writes into a field: `checked` for the checkbox,
      `value` for every other input. */
  function Written(field: Field, value: string, checked: bool): Val
  {
    if field == Featured then Flag(checked) else Str(value)
  }

  /** Writes one field, as the change handler's state update does. */
  function Set(f: FormData, field: Field, value: string, checked: bool): (g: FormData)
    ensures Read(g, field) == Written(field, value, checked)
    ensures forall other :: other != field ==> Read(g, other) == Read(f, other)
  {
    match field
    case Name => f.(name := value)
    case Description => f.(description := value)
    case Price => f.(price := value)
    case Category => f.(category := value)
    case Stock => f.(stock := value)
    case Brand => f.(brand := value)
    case ImageUrl => f.(imageUrl := value)
    case Featured => f.(featured := checked)
    case Color => f.(specifications := f.specifications.(color := value))
    case Weight => f.(specifications := f.specifications.(weight := value))
    case Dimensions => f.(specifications := f.specifications.(dimensions := value))
  }

  /** A change event followed by the effect that runs when the category
      took a new, non-empty value: that effect empties the brand. */
  function Changed(f: FormData, field: Field, value: string, checked: bool): (g: FormData)
    ensures forall other :: other != field && other != Brand ==> Read(g, other) == Read(f, other)
    ensures field != Brand ==> Read(g, field) == Written(field, value, checked)
    ensures g.brand == "" <==>
      (field == Category && value != "" && value != f.category) || Read(Set(f, field, value, checked), Brand) == Str("")
    ensures field != Category ==> g == Set(f, field, value, checked)
  {
    var s := Set(f, field, value, checked);
    if s.category != f.category && s.category != "" then s.(brand := "") else s
  }

  /** Choosing a new category empties a chosen brand; choosing the same
      category again keeps it. */
  lemma CategoryChangeClearsBrand(f: FormData, c: string)
    ensures c != "" && c != f.category ==> Changed(f, Category, c, false).brand == ""
    ensures c == f.category ==> Changed(f, Category, c, false) == f
  {
    assert Read(Changed(f, Category, c, false), Category) == Str(c);
    if c == f.category {
      ReadDetermines(Changed(f, Category, c, false), f);
    }
  }

  /** The change handler's error update: an error shown for the edited
      input is blanked; nothing else in the map changes. */
  function ClearError(errors: map<Field, string>, key: Field): (r: map<Field, string>)
    ensures r.Keys == errors.Keys
    ensures key in r ==> r[key] == ""
    ensures forall k :: k in errors && k != key ==> r[k] == errors[k]
  {
    if key in errors && errors[key] != "" then errors[key := ""] else errors
  }

  // ---------------------------------------------------------------------
  // Validation

  const ErrorKeys: set<Field> := {Name, Description, Price, Category, Stock, Brand, ImageUrl}

  function Message(key: Field): (m: string)
    ensures key in ErrorKeys ==> m != ""
  {
    match key
    case Name => "Product name is required"
    case Description => "Description is required"
    case Price => "Valid price is required"
    case Category => "Category is required"
    case Stock => "Valid stock quantity is required"
    case Brand => "Brand is required"
    case ImageUrl => "Product image is required"
    case _ => ""
  }

  /** `Number` returning `None` is `isNaN` holding. */
  predicate BadPrice(price: string)
  {
    price == [] || Number(price).None? || Number(price).value <= 0.0
  }

  predicate BadStock(stock: string)
  {
    stock == [] || Number(stock).None? || Number(stock).value < 0.0
  }

  /** Which of the seven rules reject a form: `true` means broken. */
  datatype Verdicts = Verdicts(
    name: bool, description: bool, price: bool, category: bool,
    stock: bool, brand: bool, imageUrl: bool)
  {
    predicate Broken(key: Field)
    {
      match key
      case Name => name
      case Description => description
      case Price => price
      case Category => category
      case Stock => stock
      case Brand => brand
      case ImageUrl => imageUrl
      case _ => false
    }
  }

  /** Runs the seven rules on a form. */
  function Judge(f: FormData): Verdicts
  {
    Verdicts(
      Trim(f.name) == [],
      Trim(f.description) == [],
      BadPrice(f.price),
      f.category == [],
      BadStock(f.stock),
      f.brand == [] && f.category != "other",
      f.imageUrl == [])
  }

  /** Whether the rule stored under `key` rejects the form. */
  predicate Broken(f: FormData, key: Field)
  {
    Judge(f).Broken(key)
  }

  /** The messages of the broken rules among `keys`. */
  function Among(v: Verdicts, keys: set<Field>): map<Field, string>
  {
    map k | k in keys && v.Broken(k) :: Message(k)
  }

  /** The error map validation produces: a message for exactly the broken
      rules. Every rule is looked at, whatever the others say. */
  function Errors(f: FormData): (e: map<Field, string>)
    ensures forall k :: k in e ==> e[k] != ""
  {
    Among(Judge(f), ErrorKeys)
  }

  /** Looking at one more rule adds its message exactly when it is broken. */
  lemma AmongStep(v: Verdicts, keys: set<Field>, key: Field, before: map<Field, string>, after: map<Field, string>)
    requires before == Among(v, keys)
    requires after == if v.Broken(key) then before[key := Message(key)] else before
    ensures after == Among(v, keys + {key})
  {
  }

  /** Builds the error map one rule after another, adding the rule's
      message when its verdict is "broken". */
  method BuildErrors(v: Verdicts) returns (newErrors: map<Field, string>)
    ensures newErrors == Among(v, ErrorKeys)
  {
    newErrors := map[];
    ghost var before := newErrors;
    assert before == Among(v, {});
    if v.name {
      newErrors := newErrors[Name := "Product name is required"];
    }
    AmongStep(v, {}, Name, before, newErrors);
    before := newErrors;
    if v.description {
      newErrors := newErrors[Description := "Description is required"];
    }
    AmongStep(v, {Name}, Description, before, newErrors);
    before := newErrors;
    if v.price {
      newErrors := newErrors[Price := "Valid price is required"];
    }
    AmongStep(v, {Name} + {Description}, Price, before, newErrors);
    before := newErrors;
    if v.category {
      newErrors := newErrors[Category := "Category is required"];
    }
    AmongStep(v, {Name} + {Description} + {Price}, Category, before, newErrors);
    before := newErrors;
    if v.stock {
      newErrors := newErrors[Stock := "Valid stock quantity is required"];
    }
    AmongStep(v, {Name} + {Description} + {Price} + {Category}, Stock, before, newErrors);
    before := newErrors;
    if v.brand {
      newErrors := newErrors[Brand := "Brand is required"];
    }
    AmongStep(v, {Name} + {Description} + {Price} + {Category} + {Stock}, Brand, before, newErrors);
    before := newErrors;
    if v.imageUrl {
      newErrors := newErrors[ImageUrl := "Product image is required"];
    }
    AmongStep(v, {Name} + {Description} + {Price} + {Category} + {Stock} + {Brand}, ImageUrl, before, newErrors);
    assert {Name} + {Description} + {Price} + {Category} + {Stock} + {Brand} + {ImageUrl} == ErrorKeys;
  }

  /** The text has a character that is not white space. */
  predicate Visible(s: string)
  {
    exists i :: 0 <= i < |s| && !IsSpace(s[i])
  }

  /** A form the store can accept, described field by field. */
  predicate Acceptable(f: FormData)
  {
    && Visible(f.name)
    && Visible(f.description)
    && Number(f.price).Some? && Number(f.price).value > 0.0
    && f.category != ""
    && f.stock != "" && Number(f.stock).Some? && Number(f.stock).value >= 0.0
    && (f.brand != "" || f.category == "other")
    && f.imageUrl != ""
  }

  /** The name rule fires on a name that is empty or all white space. */
  lemma NameRule(f: FormData)
    ensures Name in Errors(f) <==> !Visible(f.name)
  {
    assert Name in Errors(f) <==> Judge(f).name;
    TrimEmpty(f.name);
  }

  /** The description rule fires on a description that is empty or all
      white space. */
  lemma DescriptionRule(f: FormData)
    ensures Description in Errors(f) <==> !Visible(f.description)
  {
    assert Description in Errors(f) <==> Judge(f).description;
    TrimEmpty(f.description);
  }

  /** A rule's key is recorded exactly when the rule is broken. */
  lemma InAmong(v: Verdicts, key: Field)
    requires key in ErrorKeys
    ensures key in Among(v, ErrorKeys) <==> v.Broken(key)
  {
  }

  /** The category rule fires on an empty category. */
  lemma CategoryRule(f: FormData)
    ensures Category in Errors(f) <==> f.category == ""
  {
    var v := Judge(f);
    assert v.category <==> f.category == "";
    InAmong(v, Category);
  }

  /** The brand rule fires on an empty brand, except for category "other". */
  lemma BrandRule(f: FormData)
    ensures Brand in Errors(f) <==> f.brand == "" && f.category != "other"
  {
    var v := Judge(f);
    assert v.brand <==> f.brand == "" && f.category != "other";
    InAmong(v, Brand);
  }

  /** The image rule fires on an empty image URL. */
  lemma ImageRule(f: FormData)
    ensures ImageUrl in Errors(f) <==> f.imageUrl == ""
  {
    var v := Judge(f);
    assert v.imageUrl <==> f.imageUrl == "";
    InAmong(v, ImageUrl);
  }

  /** The price rule fires unless the price reads as a positive number;
      the empty price reads as zero. */
  lemma PriceRule(f: FormData)
    ensures Price in Errors(f) <==> !(Number(f.price).Some? && Number(f.price).value > 0.0)
  {
    assert Price in Errors(f) <==> Judge(f).price;
    if f.price == [] {
      assert Number(f.price) == Some(0.0);
    }
  }

  /** The stock rule fires unless the stock is non-empty and reads as a
      number that is not negative. */
  lemma StockRule(f: FormData)
    ensures Stock in Errors(f) <==> !(f.stock != "" && Number(f.stock).Some? && Number(f.stock).value >= 0.0)
  {
    assert Stock in Errors(f) <==> Judge(f).stock;
  }

  /** No message exactly when no rule is broken. */
  lemma AmongEmpty(v: Verdicts)
    ensures Among(v, ErrorKeys) == map[] <==>
      !v.name && !v.description && !v.price && !v.category && !v.stock && !v.brand && !v.imageUrl
  {
    if Among(v, ErrorKeys) == map[] {
      assert Name !in Among(v, ErrorKeys) && Description !in Among(v, ErrorKeys);
      assert Price !in Among(v, ErrorKeys) && Category !in Among(v, ErrorKeys);
      assert Stock !in Among(v, ErrorKeys) && Brand !in Among(v, ErrorKeys);
      assert ImageUrl !in Among(v, ErrorKeys);
    } else {
      var k :| k in Among(v, ErrorKeys);
    }
  }

  /** Validation succeeds exactly on acceptable forms. */
  lemma ErrorsEmptyIffAcceptable(f: FormData)
    ensures Errors(f) == map[] <==> Acceptable(f)
  {
    AmongEmpty(Judge(f));
    AcceptableIffRulesHold(f);
  }

  /** The rules hold exactly on acceptable forms. */
  lemma AcceptableIffRulesHold(f: FormData)
    ensures var v := Judge(f);
      Acceptable(f) <==> !v.name && !v.description && !v.price && !v.category && !v.stock && !v.brand && !v.imageUrl
  {
    TrimEmpty(f.name);
    TrimEmpty(f.description);
  }

  /** Each rule reads only its own input (and the brand rule the category):
      editing one field can change only that field's error, and a category
      edit also the brand's. */
  lemma ErrorsAreLocal(f: FormData, field: Field, value: string, checked: bool, key: Field)
    requires key != field
    requires field == Category ==> key != Brand
    ensures var g := Set(f, field, value, checked);
      (key in Errors(g) <==> key in Errors(f)) && (key in Errors(f) ==> Errors(g)[key] == Errors(f)[key])
  {
    var g := Set(f, field, value, checked);
    assert Read(g, Name) == Read(f, Name) || field == Name;
    assert Read(g, Description) == Read(f, Description) || field == Description;
    assert Read(g, Price) == Read(f, Price) || field == Price;
    assert Read(g, Category) == Read(f, Category) || field == Category;
    assert Read(g, Stock) == Read(f, Stock) || field == Stock;
    assert Read(g, Brand) == Read(f, Brand) || field == Brand;
    assert Read(g, ImageUrl) == Read(f, ImageUrl) || field == ImageUrl;
    assert Broken(g, key) == Broken(f, key);
  }

  /** The blank form breaks all seven rules. */
  lemma EmptyFormErrors()
    ensures Errors(EmptyForm).Keys == ErrorKeys
  {
    var all := Verdicts(true, true, true, true, true, true, true);
    assert Judge(EmptyForm) == all;
    AllRulesBroken(all);
  }

  lemma AllRulesBroken(v: Verdicts)
    requires v == Verdicts(true, true, true, true, true, true, true)
    ensures Among(v, ErrorKeys).Keys == ErrorKeys
  {
    forall k | k in ErrorKeys ensures v.Broken(k) {
      match k
      case Name =>
      case Description =>
      case Price =>
      case Category =>
      case Stock =>
      case Brand =>
      case ImageUrl =>
      case _ =>
    }
  }

  /** A zero price is refused. */
  lemma ZeroPriceRefused(f: FormData)
    requires f.price == "0"
    ensures Price in Errors(f)
  {
    PriceRule(f);
    assert Scan("0").whole == "0";
  }

  /** Under category "other" the brand may stay empty. */
  lemma OtherNeedsNoBrand(f: FormData)
    requires f.category == "other"
    ensures Brand !in Errors(f)
  {
    BrandRule(f);
  }

  /** Choosing a new category other than "other" clears the brand and so
      asks for one again. */
  lemma NewCategoryNeedsBrand(f: FormData, c: string)
    requires c != "" && c != f.category && c != "other"
    ensures Brand in Errors(Changed(f, Category, c, false))
  {
    var g := Changed(f, Category, c, false);
    CategoryChangeClearsBrand(f, c);
    assert Read(g, Category) == Str(c);
    BrandRule(g);
  }

  // ---------------------------------------------------------------------
  // Brands

  const Categories: seq<string> :=
    ["smartphones", "laptops", "home-decoration", "skincare", "fragrances", "groceries",
     "electronics", "clothing", "books", "other"]

  const OtherBrands: seq<string> := ["Generic", "Unbranded"]

  /** The brand table; `None` for a category it has no entry for. */
  function BrandTable(category: string): Option<seq<string>>
  {
    if category == "smartphones" then Some(["Apple", "Samsung", "Google", "OnePlus", "Xiaomi"])
    else if category == "laptops" then Some(["Apple", "Dell", "HP", "Lenovo", "Asus", "Microsoft"])
    else if category == "home-decoration" then Some(["IKEA", "HomeGoods", "West Elm", "Pottery Barn"])
    else if category == "skincare" then Some(["La Roche-Posay", "CeraVe", "The Ordinary", "Neutrogena", "Clinique"])
    else if category == "fragrances" then Some(["Chanel", "Dior", "Gucci", "Versace"])
    else if category == "groceries" then Some(["Organic Valley", "Whole Foods", "Trader Joe's"])
    else if category == "other" then Some(OtherBrands)
    else None
  }

  /** The brands offered for a category: none before a category is
      chosen, the table's entry, or the "other" list as a fallback. */
  function AvailableBrands(category: string): (r: seq<string>)
    ensures category == "" ==> r == []
    ensures category != "" && BrandTable(category).Some? ==> r == BrandTable(category).value
    ensures category != "" && BrandTable(category).None? ==> r == OtherBrands
  {
    if category == "" then []
    else if BrandTable(category).Some? then BrandTable(category).value
    else OtherBrands
  }

  /** Every category of the form offers some brand; the three categories
      without an entry of their own offer the "other" brands. */
  lemma CategoriesOfferBrands(c: string)
    requires c in Categories
    ensures AvailableBrands(c) != []
    ensures c == "electronics" || c == "clothing" || c == "books" ==> AvailableBrands(c) == OtherBrands
  {
  }

  /** Picking any offered brand, or the extra "Other" option, satisfies
      the brand rule. */
  lemma ChosenBrandSatisfiesRule(f: FormData, b: string)
    requires b in AvailableBrands(f.category) || b == "Other"
    ensures Brand !in Errors(Changed(f, Brand, b, false))
  {
    var g := Changed(f, Brand, b, false);
    assert g.brand == b;
    if b in AvailableBrands(f.category) {
      var i :| 0 <= i < |AvailableBrands(f.category)| && AvailableBrands(f.category)[i] == b;
    }
    assert b != "";
    assert !Broken(g, Brand);
  }

  // ---------------------------------------------------------------------
  // Submission

  /** The record handed to the page on submission: the form's fields with
      price and stock parsed, the image under `image`, a rating and a
      creation time. `None` in price or stock stands for `NaN`. */
  datatype ProductData = ProductData(
    name: string,
    description: string,
    price: Option<real>,
    category: string,
    stock: Option<int>,
    brand: string,
    imageUrl: string,
    featured: bool,
    specifications: Specifications,
    image: string,
    rating: real,
    createdAt: string)

  /** `existingRating` is the rating of the product being edited (`None`
      when adding, or when it has none); `now` is the current time in ISO
      form. A missing or zero rating becomes 4.0. */
  function Normalize(f: FormData, existingRating: Option<real>, now: string): (d: ProductData)
    ensures d.rating != 0.0
    ensures existingRating.Some? && existingRating.value != 0.0 ==> d.rating == existingRating.value
  {
    ProductData(f.name, f.description, ParseFloat(f.price), f.category, ParseInt(f.stock), f.brand,
      f.imageUrl, f.featured, f.specifications, f.imageUrl,
      if existingRating.Some? && existingRating.value != 0.0 then existingRating.value else 4.0,
      now)
  }

  /** On an acceptable form the parsed price is the positive number the
      form shows. The stock is `NaN` exactly when its text has a decimal
      point before any digit (".5"), a value below one; otherwise it is a
      non-negative whole number, the form's stock with any fraction
      dropped. */
  lemma NormalizeAcceptable(f: FormData, existingRating: Option<real>, now: string)
    requires Acceptable(f)
    ensures SignLength(f.stock) < |f.stock|
    ensures var d := Normalize(f, existingRating, now);
      && d.price == Number(f.price) && d.price.value > 0.0
      && (d.stock.None? <==> f.stock[SignLength(f.stock)] == '.')
      && (d.stock.None? ==> Number(f.stock).value < 1.0)
      && (d.stock.Some? ==> 0 <= d.stock.value && d.stock.value as real <= Number(f.stock).value < d.stock.value as real + 1.0)
      && d.image == f.imageUrl && d.name == f.name && d.brand == f.brand && d.category == f.category
  {
    assert f.price != [];
    NumberAgreesWithParseFloat(f.price);
    NumberAgreesWithParseFloat(f.stock);
    ParseIntNeedsWholeDigits(f.stock);
    if ParseInt(f.stock).Some? {
      ParseIntTruncates(f.stock);
      var d := Scan(f.stock);
      if d.negative {
        assert Value(d) == -(DigitsValue(d.whole) as real + FractionValue(d.fraction));
      }
    }
  }

  /** A stock of ".5" passes the stock rule, since `Number` reads 0.5, yet
      the submitted stock is `NaN`, since `parseInt` finds no digit before
      the point. */
  lemma FractionStockSubmittedAsNaN(f: FormData, existingRating: Option<real>, now: string)
    requires f.stock == ".5"
    ensures Stock !in Errors(f)
    ensures Normalize(f, existingRating, now).stock.None?
  {
    StockRule(f);
    ParseIntOfFraction();
    NumberAgreesWithParseFloat(f.stock);
  }

  /** The form's state: its fields, the error map and the image preview. */
  class ProductFormState {
    var formData: FormData
    var errors: map<Field, string>
    var imagePreview: string

    constructor()
      ensures formData == EmptyForm && errors == map[] && imagePreview == ""
    {
      formData := EmptyForm;
      errors := map[];
      imagePreview := "";
    }

    /** A change event on `field`, with the category effect it may trigger. */
    method HandleChange(field: Field, value: string, checked: bool)
      modifies this
      ensures formData == Changed(old(formData), field, value, checked)
      ensures errors == ClearError(old(errors), field)
      ensures imagePreview == old(imagePreview)
    {
      var previous := formData;
      formData := Set(formData, field, value, checked);
      if formData.category != previous.category && formData.category != "" {
        formData := formData.(brand := "");
      }
      if field in errors && errors[field] != "" {
        errors := errors[field := ""];
      }
    }

    /** Typing an image URL: the preview follows a non-empty URL. */
    method HandleImageUrl(url: string)
      modifies this
      ensures formData == old(formData).(imageUrl := url)
      ensures imagePreview == if url != "" then url else old(imagePreview)
      ensures errors == old(errors)
    {
      formData := formData.(imageUrl := url);
      if url != "" {
        imagePreview := url;
      }
    }

    /** The remove button on the preview. */
    method RemoveImage()
      modifies this
      ensures formData == old(formData).(imageUrl := "") && imagePreview == ""
      ensures errors == old(errors)
    {
      imagePreview := "";
      formData := formData.(imageUrl := "");
    }

    /** Runs the seven rules into a fresh map, stores it, and reports
        whether it is empty. */
    method ValidateForm() returns (ok: bool)
      modifies this`errors
      ensures errors == Errors(formData)
      ensures ok <==> Acceptable(formData)
    {
      var f := formData;
      var newErrors := BuildErrors(Judge(f));
      errors := newErrors;
      ok := |newErrors| == 0;
      assert ok <==> Errors(f) == map[];
      ErrorsEmptyIffAcceptable(f);
    }

    /** Submission: the normalized record when validation passes, nothing
        otherwise. Either way the error map is the one validation built. */
    method HandleSubmit(existingRating: Option<real>, now: string) returns (submitted: Option<ProductData>)
      modifies this`errors
      ensures errors == Errors(formData)
      ensures submitted.Some? <==> Acceptable(formData)
      ensures submitted.Some? ==> submitted.value == Normalize(formData, existingRating, now)
    {
      var ok := ValidateForm();
      if !ok {
        return None;
      }
      submitted := Some(Normalize(formData, existingRating, now));
    }
  }
}
