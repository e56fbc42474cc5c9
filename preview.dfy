/** The listing card: what the preview shows for a draft. Every text on the
    card is its field's value, or a fixed placeholder when the field is empty,
    so the card is always renderable. */
module Preview {
  import opened Draft

  const TitlePlaceholder: string := "Incrível Mansão Moderna"
  const LocationPlaceholder: string := "Localização Premium"
  const PricePlaceholder: string := "Sob Consulta"
  const CountPlaceholder: string := "0"
  const AreaUnit: string := "m²"
  const SaleBadge: string := "Venda Exclusiva"
  const RentalBadge: string := "Oportunidade de Locação"

  /** JavaScript's `s || fallback` on strings: the empty string is falsy, so
      a non-empty value is kept and an empty one gives way to the fallback. */
  function OrElse(s: string, fallback: string): (r: string)
    ensures r == s || r == fallback
    ensures s != "" ==> r == s
    ensures r == "" <==> s == "" && fallback == ""
  {
    if s != "" then s else fallback
  }

  /** What an image slot puts on the card: the image itself, a house icon in
      place of a missing photo, or nothing at all in place of a missing logo. */
  datatype PhotoView = Photo(src: ImageData) | Placeholder | Hidden

  /** JavaScript truthiness of an image slot: null and "" are falsy. */
  predicate Truthy(o: Option<ImageData>) {
    o.Some? && o.value != ""
  }

  /** `data.image ? <img> : <Home>` for the three photos, and
      `data.logo && <img>` for the logo. */
  function ShowSlot(s: ImageSlot, o: Option<ImageData>): (v: PhotoView)
    ensures v.Photo? <==> Truthy(o)
    ensures v.Photo? ==> Some(v.src) == o
    ensures v == Placeholder <==> !Truthy(o) && s != Logo
    ensures v == Hidden <==> !Truthy(o) && s == Logo
  {
    if Truthy(o) then Photo(o.value)
    else if s == Logo then Hidden
    else Placeholder
  }

  /** Everything the card displays that depends on the draft. */
  datatype Card = Card(
    badge: string,
    title: string,
    location: string,
    area: string,
    bedrooms: string,
    bathrooms: string,
    parking: string,
    price: string,
    mainPhoto: PhotoView,
    photo2: PhotoView,
    photo3: PhotoView,
    logo: PhotoView,
    background: string,
    ink: string,
    accent: string)

  function Badge(t: PropertyType): (b: string)
    ensures b == SaleBadge <==> t == Venda
    ensures b == RentalBadge <==> t == Locacao
  {
    match t
    case Venda => SaleBadge
    case Locacao => RentalBadge
  }

  /** How the card shows a value of input `f`, independently of every other
      input: a text behind its placeholder (the area followed by its unit), a
      colour as it is. */
  function Display(f: Field, v: string): (r: string)
    ensures !IsColor(f) ==> r != ""
    ensures IsColor(f) ==> r == v
    ensures v != "" && f != Area ==> r == v
  {
    match f
    case Title => OrElse(v, TitlePlaceholder)
    case Location => OrElse(v, LocationPlaceholder)
    case Price => OrElse(v, PricePlaceholder)
    case Area => OrElse(v, CountPlaceholder) + AreaUnit
    case Bedrooms => OrElse(v, CountPlaceholder)
    case Bathrooms => OrElse(v, CountPlaceholder)
    case Parking => OrElse(v, CountPlaceholder)
    case PrimaryColor => v
    case TextColor => v
    case SecondaryColor => v
  }

  /** The card a draft renders to. */
  function Render(d: PropertyData): (c: Card)
    ensures c.title != "" && c.location != "" && c.price != ""
    ensures c.area != "" && c.bedrooms != "" && c.bathrooms != "" && c.parking != ""
    ensures c.badge == SaleBadge <==> d.propertyType == Venda
    ensures c.badge == RentalBadge <==> d.propertyType == Locacao
    ensures c.logo.Photo? <==> Truthy(d.logo)
    ensures c.mainPhoto != Hidden && c.photo2 != Hidden && c.photo3 != Hidden
  {
    Card(
      badge := Badge(d.propertyType),
      title := Display(Title, d.title),
      location := Display(Location, d.location),
      area := Display(Area, d.area),
      bedrooms := Display(Bedrooms, d.bedrooms),
      bathrooms := Display(Bathrooms, d.bathrooms),
      parking := Display(Parking, d.parking),
      price := Display(Price, d.price),
      mainPhoto := ShowSlot(Image, d.image),
      photo2 := ShowSlot(Image2, d.image2),
      photo3 := ShowSlot(Image3, d.image3),
      logo := ShowSlot(Logo, d.logo),
      background := Display(PrimaryColor, d.primaryColor),
      ink := Display(TextColor, d.textColor),
      accent := Display(SecondaryColor, d.secondaryColor))
  }

  /** The part of the card that shows input `f`. */
  function Shown(c: Card, f: Field): string {
    match f
    case Title => c.title
    case Location => c.location
    case Price => c.price
    case Area => c.area
    case Bedrooms => c.bedrooms
    case Bathrooms => c.bathrooms
    case Parking => c.parking
    case PrimaryColor => c.background
    case TextColor => c.ink
    case SecondaryColor => c.accent
  }

  /** The part of the card that shows image slot `s`. */
  function ShownPhoto(c: Card, s: ImageSlot): PhotoView {
    match s
    case Image => c.mainPhoto
    case Image2 => c.photo2
    case Image3 => c.photo3
    case Logo => c.logo
  }

  /** Rendering works input by input: each part of the card depends on its own
      input only, a non-empty value is shown as it is, and an empty one as its
      placeholder. */
  lemma RenderPointwise(d: PropertyData)
    ensures forall f :: Shown(Render(d), f) == Display(f, Get(d, f))
    ensures forall f :: Get(d, f) != "" && f != Area ==> Shown(Render(d), f) == Get(d, f)
    ensures Shown(Render(d), Area) == OrElse(d.area, CountPlaceholder) + AreaUnit
    ensures forall s :: ShownPhoto(Render(d), s) == ShowSlot(s, Slot(d, s))
  {
  }

  /** An edit of input `f` changes the card in the part that shows `f` and
      nowhere else. */
  lemma RenderAfterEdit(d: PropertyData, f: Field, v: string)
    ensures Shown(Render(SetField(d, f, v)), f) == Display(f, v)
    ensures forall g :: g != f ==> Shown(Render(SetField(d, f, v)), g) == Shown(Render(d), g)
    ensures forall s :: ShownPhoto(Render(SetField(d, f, v)), s) == ShownPhoto(Render(d), s)
    ensures Render(SetField(d, f, v)).badge == Render(d).badge
  {
  }

  /** An upload to slot `s` changes the card in the frame that shows `s` and
      nowhere else. The frame shows the new image when the read delivered a
      non-empty payload; after a failed read it shows a missing image (the
      house icon for a photo, nothing for the logo). */
  lemma RenderAfterUpload(d: PropertyData, s: ImageSlot, result: Option<ImageData>)
    ensures ShownPhoto(Render(Upload(d, s, Chosen(result))), s) == ShowSlot(s, result)
    ensures result.Some? && result.value != "" ==>
              ShownPhoto(Render(Upload(d, s, Chosen(result))), s) == Photo(result.value)
    ensures result.None? && s != Logo ==> ShownPhoto(Render(Upload(d, s, Chosen(result))), s) == Placeholder
    ensures result.None? && s == Logo ==> ShownPhoto(Render(Upload(d, s, Chosen(result))), s) == Hidden
    ensures forall t :: t != s ==> ShownPhoto(Render(Upload(d, s, Chosen(result))), t) == ShownPhoto(Render(d), t)
    ensures forall f :: Shown(Render(Upload(d, s, Chosen(result))), f) == Shown(Render(d), f)
    ensures Render(Upload(d, s, Chosen(result))).badge == Render(d).badge
  {
  }

  /** The card of a fresh session: every text is its placeholder, every photo
      frame shows the house icon, there is no logo, and the badge reads as a sale. */
  lemma RenderDefault()
    ensures Render(DefaultData()) == Card(
      badge := SaleBadge,
      title := TitlePlaceholder, location := LocationPlaceholder,
      area := CountPlaceholder + AreaUnit, bedrooms := CountPlaceholder,
      bathrooms := CountPlaceholder, parking := CountPlaceholder,
      price := PricePlaceholder,
      mainPhoto := Placeholder, photo2 := Placeholder, photo3 := Placeholder,
      logo := Hidden,
      background := "#ffffff", ink := "#1a1a1a", accent := "#d4af37")
  {
  }
}
