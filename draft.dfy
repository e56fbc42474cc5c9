/** The listing draft: the flat record the form edits, its defaults, and the
    pure record updates that the event handlers of the form apply to it. */
module Draft {

  datatype Option<T> = None | Some(value: T)

  /** The two kinds of business a listing can advertise ('venda' and 'locação'). */
  datatype PropertyType = Venda | Locacao

  /** An image payload (a data URL read from a local file) is an opaque string. */
  type ImageData = string

  datatype PropertyData = PropertyData(
    title: string,
    price: string,
    location: string,
    area: string,
    bedrooms: string,
    bathrooms: string,
    parking: string,
    image: Option<ImageData>,
    image2: Option<ImageData>,
    image3: Option<ImageData>,
    logo: Option<ImageData>,
    primaryColor: string,
    secondaryColor: string,
    textColor: string,
    propertyType: PropertyType)

  /** The names of the ten text, number and colour inputs of the form. */
  datatype Field =
    | Title | Price | Area | Location | Bedrooms | Bathrooms | Parking
    | PrimaryColor | TextColor | SecondaryColor

  /** The four file inputs: three photos and a logo. */
  datatype ImageSlot = Image | Image2 | Image3 | Logo

  /** The colour pickers; every other field is a free text or number input. */
  predicate IsColor(f: Field) {
    f == PrimaryColor || f == TextColor || f == SecondaryColor
  }

  /** The value of the input named `f`. */
  function Get(d: PropertyData, f: Field): string {
    match f
    case Title => d.title
    case Price => d.price
    case Area => d.area
    case Location => d.location
    case Bedrooms => d.bedrooms
    case Bathrooms => d.bathrooms
    case Parking => d.parking
    case PrimaryColor => d.primaryColor
    case TextColor => d.textColor
    case SecondaryColor => d.secondaryColor
  }

  /** The content of image slot `s`. */
  function Slot(d: PropertyData, s: ImageSlot): Option<ImageData> {
    match s
    case Image => d.image
    case Image2 => d.image2
    case Image3 => d.image3
    case Logo => d.logo
  }

  /** The inputs, the image slots and the business type together determine a
      draft: two drafts that agree on all of them are the same draft. */
  lemma Extensionality(d: PropertyData, e: PropertyData)
    requires forall f :: Get(d, f) == Get(e, f)
    requires forall s :: Slot(d, s) == Slot(e, s)
    requires d.propertyType == e.propertyType
    ensures d == e
  {
    assert Get(d, Title) == Get(e, Title) && Get(d, Price) == Get(e, Price);
    assert Get(d, Area) == Get(e, Area) && Get(d, Location) == Get(e, Location);
    assert Get(d, Bedrooms) == Get(e, Bedrooms) && Get(d, Bathrooms) == Get(e, Bathrooms);
    assert Get(d, Parking) == Get(e, Parking) && Get(d, PrimaryColor) == Get(e, PrimaryColor);
    assert Get(d, TextColor) == Get(e, TextColor) && Get(d, SecondaryColor) == Get(e, SecondaryColor);
    assert Slot(d, Image) == Slot(e, Image) && Slot(d, Image2) == Slot(e, Image2);
    assert Slot(d, Image3) == Slot(e, Image3) && Slot(d, Logo) == Slot(e, Logo);
  }

  /** The draft a session starts from: every text input empty, no image, a white
      background, dark text, a gold accent, and a sale listing. */
  function DefaultData(): (d: PropertyData)
    ensures forall f :: !IsColor(f) ==> Get(d, f) == ""
    ensures forall s :: Slot(d, s) == None
    ensures Get(d, PrimaryColor) == "#ffffff"
    ensures Get(d, SecondaryColor) == "#d4af37"
    ensures Get(d, TextColor) == "#1a1a1a"
    ensures d.propertyType == Venda
  {
    PropertyData(
      title := "", price := "", location := "", area := "",
      bedrooms := "", bathrooms := "", parking := "",
      image := None, image2 := None, image3 := None, logo := None,
      primaryColor := "#ffffff", secondaryColor := "#d4af37", textColor := "#1a1a1a",
      propertyType := Venda)
  }

  /** The record an input change produces: `{ ...prev, [name]: value }`.
      Exactly the named input takes the new value; nothing else changes. */
  function SetField(d: PropertyData, f: Field, v: string): (r: PropertyData)
    ensures Get(r, f) == v
    ensures forall g :: g != f ==> Get(r, g) == Get(d, g)
    ensures forall s :: Slot(r, s) == Slot(d, s)
    ensures r.propertyType == d.propertyType
  {
    match f
    case Title => d.(title := v)
    case Price => d.(price := v)
    case Area => d.(area := v)
    case Location => d.(location := v)
    case Bedrooms => d.(bedrooms := v)
    case Bathrooms => d.(bathrooms := v)
    case Parking => d.(parking := v)
    case PrimaryColor => d.(primaryColor := v)
    case TextColor => d.(textColor := v)
    case SecondaryColor => d.(secondaryColor := v)
  }

  /** What a file input delivers. `NoFile`: the picker closed with no file
      chosen. `Chosen(result)`: a file was chosen and its read ended; `result`
      is the reader's result, a data URL, or None (the reader's `null`) when
      the read failed or was aborted. */
  datatype Selection = NoFile | Chosen(result: Option<ImageData>)

  /** The record a finished file read produces: `{ ...prev, [type]: result }`.
      A failed read writes null and so clears the slot. */
  function SetSlot(d: PropertyData, s: ImageSlot, result: Option<ImageData>): (r: PropertyData)
    ensures Slot(r, s) == result
    ensures forall t :: t != s ==> Slot(r, t) == Slot(d, t)
    ensures forall f :: Get(r, f) == Get(d, f)
    ensures r.propertyType == d.propertyType
  {
    match s
    case Image => d.(image := result)
    case Image2 => d.(image2 := result)
    case Image3 => d.(image3 := result)
    case Logo => d.(logo := result)
  }

  /** An image upload: with no file chosen the draft is left alone; otherwise
      the reader's result lands in slot `s` and only there, a payload when the
      read succeeded and null when it failed. */
  function Upload(d: PropertyData, s: ImageSlot, sel: Selection): (r: PropertyData)
    ensures sel.NoFile? ==> r == d
    ensures sel.Chosen? ==> Slot(r, s) == sel.result
    ensures sel == Chosen(None) ==> Slot(r, s) == None
    ensures forall t :: t != s ==> Slot(r, t) == Slot(d, t)
    ensures forall f :: Get(r, f) == Get(d, f)
    ensures r.propertyType == d.propertyType
  {
    match sel
    case NoFile => d
    case Chosen(result) => SetSlot(d, s, result)
  }

  /** What either business-type button does: `{ ...prev, propertyType: t }`. */
  function SetType(d: PropertyData, t: PropertyType): (r: PropertyData)
    ensures r.propertyType == t
    ensures forall f :: Get(r, f) == Get(d, f)
    ensures forall s :: Slot(r, s) == Slot(d, s)
  {
    d.(propertyType := t)
  }

  /** Pressing a business-type button twice is the same as pressing it once,
      and pressing the button of the current type changes nothing. */
  lemma SetTypeIdempotent(d: PropertyData, t: PropertyType)
    ensures SetType(SetType(d, t), t) == SetType(d, t)
    ensures d.propertyType == t ==> SetType(d, t) == d
  {
  }

  /** The business type only ever holds one of the two values, and the type
      a draft ends up with is the one of the last button pressed. */
  lemma SetTypeLastWins(d: PropertyData, t: PropertyType, u: PropertyType)
    ensures SetType(SetType(d, t), u) == SetType(d, u)
  {
  }

  /** Two edits of the same input: the later value wins. */
  lemma SetFieldLastWins(d: PropertyData, f: Field, v: string, w: string)
    ensures SetField(SetField(d, f, v), f, w) == SetField(d, f, w)
  {
  }

  /** Edits of two different inputs do not interfere: their order does not matter. */
  lemma SetFieldCommutes(d: PropertyData, f: Field, v: string, g: Field, w: string)
    requires f != g
    ensures SetField(SetField(d, f, v), g, w) == SetField(SetField(d, g, w), f, v)
  {
  }

  /** Editing an input back to the value it already holds changes nothing. */
  lemma SetFieldSameValue(d: PropertyData, f: Field)
    ensures SetField(d, f, Get(d, f)) == d
  {
  }

  /** Uploads to two different slots do not interfere, whichever file read
      finishes first. */
  lemma UploadCommutes(d: PropertyData, s: ImageSlot, a: Selection, t: ImageSlot, b: Selection)
    requires s != t
    ensures Upload(Upload(d, s, a), t, b) == Upload(Upload(d, t, b), s, a)
  {
  }
}
