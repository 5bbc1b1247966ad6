/** The content assembler `build_story`: turns a partial quote record (field name to
    text) and an optional vehicle photo into the ordered list of blocks the page
    templates flow, following a fixed outline. `BuildStory` grows the list step by
    step as the service does; `StorySpec` states the same list section by section. */
module Story {
  import opened Text
  import opened Styles
  import Geometry

  /** A quote record as handed to the assembler; it may lack any field. */
  type Record = map<string, string>

  /** The "not available" marker substituted for every missing field. */
  const NOT_AVAILABLE: string := "N.D."
  /** About 1 cm of padding above and below the vehicle photo. */
  const VEHICLE_TOP_BOTTOM_GAP_PT: real := 28.35
  /** The photo may take at most 30% of the first page's usable height. */
  const MAX_VEHICLE_RATIO: real := 0.30
  const MAX_PHOTO_WIDTH: real := 10.0 * Geometry.CM

  datatype Block =
    | Paragraph(text: string, style: Style)
    | Spacer(height: real)
      /** An image drawn from `source`, shrunk to fit `maxWidth` by `maxHeight`. */
    | Image(source: string, maxWidth: real, maxHeight: real)

  /** `data.get(key, default)`. */
  function Get(data: Record, key: string, default: string): string {
    if key in data then data[key] else default
  }

  /** A labelled line of the quote: `caption`, the record's value for `key`, then `unit`. */
  datatype Field = Field(caption: string, key: string, unit: string)

  const CLIENT_FIELDS: seq<Field> := [
    Field("Ragione sociale / Nome: ", "cliente_nome", ""),
    Field("P.IVA / CF: ", "piva_cf", ""),
    Field("Sede: ", "sede", ""),
    Field("Referente: ", "referente", "")]

  const VEHICLE_FIELDS: seq<Field> := [
    Field("Marca e Modello: ", "marca_modello", ""),
    Field("Versione / Allestimento: ", "versione", ""),
    Field("Motore / Alimentazione / Cambio / Potenza: ", "motore", ""),
    Field("Idoneo neopatentati: ", "neopatentati", ""),
    Field("Consegna stimata: ", "consegna", "")]

  const ECONOMIC_FIELDS: seq<Field> := [
    Field("Durata: ", "durata", " mesi"),
    Field("Chilometraggio: ", "km_annui", " km/anno"),
    Field("Anticipo: ", "anticipo", " euro")]

  /** The twelve labelled lines in the order they appear. */
  const ALL_FIELDS: seq<Field> := CLIENT_FIELDS + VEHICLE_FIELDS + ECONOMIC_FIELDS

  /** The monthly fee, which drives the price callout. */
  const PRICE_KEY: string := "canone"

  const SERVICES: seq<string> := [
    "RCA",
    "Kasko / Danni / Furto & Incendio",
    "Manutenzione ordinaria e straordinaria",
    "Pneumatici (premium o equivalenti)",
    "Assistenza stradale 24h",
    "Gestione sinistri e contravvenzioni",
    "Veicolo sostitutivo (se previsto)",
    "Immatricolazione e consegna"]

  const DOCUMENTATION_NOTES: seq<string> := [
    "SOCIETA (SRL, SAS, SPA, SRLS): documento; cod. fiscale; visura aggiornata a 6 mesi; ultimo bilancio depositato con ricevuta",
    "DITTA INDIVIDUALE / SNC / LIBERO PROFESSIONISTA: documento; cod. fiscale; visura aggiornata a 6 mesi; modello unico",
    "PRIVATI: documento; cod. fiscale; CUD anno precedente; ultime 2 buste paga",
    "PENSIONATI: documento; cod. fiscale; cedolini o estratto conto"]

  const TERMS: string :=
    "Offerta soggetta ad approvazione della societa di noleggio; Immagini a scopo illustrativo; Canoni IVA esclusa salvo diversa indicazione; Disponibilita e canone variabili secondo valutazione creditizia"

  const CONTACT: string := "Larini Automotive Rent | Tel. 379 2114207 | noleggio@larini.it | www.larinirent.it"

  const SECTION_SPACER: Block := Spacer(6.0)
  const PRICE_SPACER: Block := Spacer(4.0)
  const PRICE_NOTE: Block := Paragraph("Tutto incluso - senza sorprese", Italic)
  const PRICE_MISSING: Block := Paragraph("Canone mensile: N.D.", Base)

  function FieldText(data: Record, f: Field): string {
    f.caption + Get(data, f.key, NOT_AVAILABLE) + f.unit
  }

  function FieldLine(data: Record, f: Field): Block {
    Paragraph(FieldText(data, f), Base)
  }

  function FieldLines(data: Record, fields: seq<Field>): (ps: seq<Block>)
    ensures |ps| == |fields|
  {
    seq(|fields|, i requires 0 <= i < |fields| => FieldLine(data, fields[i]))
  }

  function Section(title: string, data: Record, fields: seq<Field>): seq<Block> {
    [Paragraph(title, Title)] + FieldLines(data, fields)
  }

  function ServiceLine(service: string): Block {
    Paragraph("- " + service, Base)
  }

  function ServiceLines(services: seq<string>): (ps: seq<Block>)
    ensures |ps| == |services|
  {
    seq(|services|, i requires 0 <= i < |services| => ServiceLine(services[i]))
  }

  /** Whether the monthly fee is shown as a price: it must be non-empty and must not
      start, ignoring case, with the "n.d" of the not-available marker. */
  predicate ShowsPrice(price: string) {
    price != "" && !StartsWith(Lower(price), "n.d")
  }

  /** The padded photo block, present only when a photo path is given and the file
      exists; the image is capped at 10 cm wide and 30% of the first page's usable
      height. */
  function PhotoGroup(photo: Option<string>, photoExists: bool, firstPageUsableHeight: real): seq<Block> {
    if photo.Some? && photoExists then
      [Spacer(VEHICLE_TOP_BOTTOM_GAP_PT),
       Image(photo.value, MAX_PHOTO_WIDTH, MAX_VEHICLE_RATIO * firstPageUsableHeight),
       Spacer(VEHICLE_TOP_BOTTOM_GAP_PT)]
    else []
  }

  /** The client, vehicle and economic-terms sections with the spacers between them. */
  function DataSections(data: Record): (ps: seq<Block>)
    ensures |ps| == 17
  {
    Section("DATI CLIENTE", data, CLIENT_FIELDS) + [SECTION_SPACER]
    + Section("VEICOLO PROPOSTO", data, VEHICLE_FIELDS) + [SECTION_SPACER]
    + Section("CONDIZIONI ECONOMICHE", data, ECONOMIC_FIELDS)
  }

  function PriceCallout(data: Record): seq<Block> {
    var price := Get(data, PRICE_KEY, NOT_AVAILABLE);
    if ShowsPrice(price) then
      [PRICE_SPACER, Paragraph(price + " euro + IVA al mese", Price), PRICE_NOTE]
    else [PRICE_MISSING]
  }

  function ServicesSection(): (ps: seq<Block>)
    ensures |ps| == 10
  {
    [SECTION_SPACER, Paragraph("SERVIZI INCLUSI", Title)] + ServiceLines(SERVICES)
  }

  /** Documentation notes, terms and conditions, and contacts. */
  function ClosingSections(): (ps: seq<Block>)
    ensures |ps| == 12
  {
    [SECTION_SPACER, Paragraph("DOCUMENTAZIONE RICHIESTA", Title)]
    + seq(|DOCUMENTATION_NOTES|, i requires 0 <= i < |DOCUMENTATION_NOTES| => Paragraph(DOCUMENTATION_NOTES[i], Base))
    + [SECTION_SPACER, Paragraph("TERMINI E CONDIZIONI", Title), Paragraph(TERMS, Base)]
    + [SECTION_SPACER, Paragraph("CONTATTI", Title), Paragraph(CONTACT, Base)]
  }

  /** The whole story, outline section by outline section. */
  function StorySpec(data: Record, photo: Option<string>, photoExists: bool, firstPageUsableHeight: real): seq<Block> {
    PhotoGroup(photo, photoExists, firstPageUsableHeight) + DataSections(data)
    + PriceCallout(data) + ServicesSection() + ClosingSections()
  }

  /** `build_story`, growing the list as the service does. Whether the photo file
      exists is a parameter. */
  method BuildStory(data: Record, photo: Option<string>, photoExists: bool, firstPageUsableHeight: real)
    returns (story: seq<Block>)
    ensures story == StorySpec(data, photo, photoExists, firstPageUsableHeight)
  {
    story := [];
    if photo.Some? && photoExists {
      var img := Image(photo.value, MAX_PHOTO_WIDTH, MAX_VEHICLE_RATIO * firstPageUsableHeight);
      story := story + [Spacer(VEHICLE_TOP_BOTTOM_GAP_PT), img, Spacer(VEHICLE_TOP_BOTTOM_GAP_PT)];
    }
    ghost var photoPart := story;
    assert photoPart == PhotoGroup(photo, photoExists, firstPageUsableHeight);

    story := story + [
      Paragraph("DATI CLIENTE", Title),
      FieldLine(data, CLIENT_FIELDS[0]),
      FieldLine(data, CLIENT_FIELDS[1]),
      FieldLine(data, CLIENT_FIELDS[2]),
      FieldLine(data, CLIENT_FIELDS[3]),
      SECTION_SPACER,
      Paragraph("VEICOLO PROPOSTO", Title),
      FieldLine(data, VEHICLE_FIELDS[0]),
      FieldLine(data, VEHICLE_FIELDS[1]),
      FieldLine(data, VEHICLE_FIELDS[2]),
      FieldLine(data, VEHICLE_FIELDS[3]),
      FieldLine(data, VEHICLE_FIELDS[4]),
      SECTION_SPACER,
      Paragraph("CONDIZIONI ECONOMICHE", Title),
      FieldLine(data, ECONOMIC_FIELDS[0]),
      FieldLine(data, ECONOMIC_FIELDS[1]),
      FieldLine(data, ECONOMIC_FIELDS[2])];
    DataSectionsListed(data);
    assert story == photoPart + DataSections(data);

    var price := Get(data, PRICE_KEY, NOT_AVAILABLE);
    if price != "" && !StartsWith(Lower(price), "n.d") {
      story := story + [PRICE_SPACER, Paragraph(price + " euro + IVA al mese", Price), PRICE_NOTE];
    } else {
      story := story + [PRICE_MISSING];
    }
    ghost var beforeServices := story;
    assert beforeServices == photoPart + DataSections(data) + PriceCallout(data);

    story := AppendServices(story);
    assert story == beforeServices + ServicesSection();

    story := story + [
      SECTION_SPACER, Paragraph("DOCUMENTAZIONE RICHIESTA", Title),
      Paragraph(DOCUMENTATION_NOTES[0], Base),
      Paragraph(DOCUMENTATION_NOTES[1], Base),
      Paragraph(DOCUMENTATION_NOTES[2], Base),
      Paragraph(DOCUMENTATION_NOTES[3], Base),
      SECTION_SPACER, Paragraph("TERMINI E CONDIZIONI", Title),
      Paragraph(TERMS, Base),
      SECTION_SPACER, Paragraph("CONTATTI", Title),
      Paragraph(CONTACT, Base)];
    ClosingSectionsListed();
  }

  /** The "SERVIZI INCLUSI" heading and the loop appending one bullet line per
      included service, in the listed order. */
  method AppendServices(prefix: seq<Block>) returns (story: seq<Block>)
    ensures story == prefix + ServicesSection()
  {
    story := prefix + [SECTION_SPACER, Paragraph("SERVIZI INCLUSI", Title)];
    for i := 0 to |SERVICES|
      invariant story == prefix + [SECTION_SPACER, Paragraph("SERVIZI INCLUSI", Title)] + ServiceLines(SERVICES[..i])
    {
      assert ServiceLines(SERVICES[..i + 1]) == ServiceLines(SERVICES[..i]) + [ServiceLine(SERVICES[i])];
      story := story + [ServiceLine(SERVICES[i])];
    }
    assert SERVICES[..|SERVICES|] == SERVICES;
  }

  /** The closing sections spelled out block by block. */
  lemma ClosingSectionsListed()
    ensures ClosingSections() == [
      SECTION_SPACER, Paragraph("DOCUMENTAZIONE RICHIESTA", Title),
      Paragraph(DOCUMENTATION_NOTES[0], Base),
      Paragraph(DOCUMENTATION_NOTES[1], Base),
      Paragraph(DOCUMENTATION_NOTES[2], Base),
      Paragraph(DOCUMENTATION_NOTES[3], Base),
      SECTION_SPACER, Paragraph("TERMINI E CONDIZIONI", Title),
      Paragraph(TERMS, Base),
      SECTION_SPACER, Paragraph("CONTATTI", Title),
      Paragraph(CONTACT, Base)]
  {
  }

  /** The three data sections spelled out block by block. */
  lemma DataSectionsListed(data: Record)
    ensures DataSections(data) == [
      Paragraph("DATI CLIENTE", Title),
      FieldLine(data, CLIENT_FIELDS[0]),
      FieldLine(data, CLIENT_FIELDS[1]),
      FieldLine(data, CLIENT_FIELDS[2]),
      FieldLine(data, CLIENT_FIELDS[3]),
      SECTION_SPACER,
      Paragraph("VEICOLO PROPOSTO", Title),
      FieldLine(data, VEHICLE_FIELDS[0]),
      FieldLine(data, VEHICLE_FIELDS[1]),
      FieldLine(data, VEHICLE_FIELDS[2]),
      FieldLine(data, VEHICLE_FIELDS[3]),
      FieldLine(data, VEHICLE_FIELDS[4]),
      SECTION_SPACER,
      Paragraph("CONDIZIONI ECONOMICHE", Title),
      FieldLine(data, ECONOMIC_FIELDS[0]),
      FieldLine(data, ECONOMIC_FIELDS[1]),
      FieldLine(data, ECONOMIC_FIELDS[2])]
  {
  }

  // ---------------------------------------------------------------------------
  // What the story promises

  /** The keys the story looks up: the twelve labelled lines and the monthly fee. */
  function StoryKeys(): (ks: seq<string>)
    ensures |ks| == 13
  {
    seq(|ALL_FIELDS|, i requires 0 <= i < |ALL_FIELDS| => ALL_FIELDS[i].key) + [PRICE_KEY]
  }

  predicate NoImages(bs: seq<Block>) {
    forall i :: 0 <= i < |bs| ==> !bs[i].Image?
  }

  /** A block the price callout cannot have contributed: not in the price style and
      not in the italic style. */
  predicate Plain(b: Block) {
    !(b.Paragraph? && (b.style == Price || b.style == Italic))
  }

  predicate AllPlain(bs: seq<Block>) {
    forall i :: 0 <= i < |bs| ==> Plain(bs[i])
  }

  /** Where the `j`-th labelled line sits within the data sections: after the section
      title, and after each earlier section's spacer and title. */
  function FieldPosition(j: nat): nat {
    j + 1 + (if j >= 4 then 2 else 0) + (if j >= 9 then 2 else 0)
  }

  lemma NoImagesConcat(a: seq<Block>, b: seq<Block>)
    requires NoImages(a) && NoImages(b)
    ensures NoImages(a + b)
  {
  }

  lemma AllPlainConcat(a: seq<Block>, b: seq<Block>)
    requires AllPlain(a) && AllPlain(b)
    ensures AllPlain(a + b)
  {
  }

  /** Outside the optional photo and the price callout every part of the outline is
      fixed, holds no image and only body or title paragraphs. */
  lemma DataSectionsPlain(data: Record)
    ensures NoImages(DataSections(data)) && AllPlain(DataSections(data))
  {
    DataSectionsListed(data);
  }

  lemma ServicesSectionPlain()
    ensures NoImages(ServicesSection()) && AllPlain(ServicesSection())
  {
  }

  lemma ClosingSectionsPlain()
    ensures NoImages(ClosingSections()) && AllPlain(ClosingSections())
  {
    ClosingSectionsListed();
  }

  /** Everything after the photo group holds no image. */
  lemma BodyHasNoImages(data: Record)
    ensures NoImages(DataSections(data) + PriceCallout(data) + ServicesSection() + ClosingSections())
  {
    DataSectionsPlain(data);
    ServicesSectionPlain();
    ClosingSectionsPlain();
    NoImagesConcat(DataSections(data), PriceCallout(data));
    NoImagesConcat(DataSections(data) + PriceCallout(data), ServicesSection());
    NoImagesConcat(DataSections(data) + PriceCallout(data) + ServicesSection(), ClosingSections());
  }

  /** The story's size: 39 fixed blocks, three more for a photo, and one block for a
      missing price or three for a shown one. */
  lemma StoryLength(data: Record, photo: Option<string>, photoExists: bool, h: real)
    ensures |PhotoGroup(photo, photoExists, h)| == (if photo.Some? && photoExists then 3 else 0)
    ensures |PriceCallout(data)| == (if ShowsPrice(Get(data, PRICE_KEY, NOT_AVAILABLE)) then 3 else 1)
    ensures |StorySpec(data, photo, photoExists, h)|
         == |PhotoGroup(photo, photoExists, h)| + 17 + |PriceCallout(data)| + 22
  {
  }

  /** The photo group is at the front exactly when a photo path is given and the file
      exists: a spacer, the image capped at 10 cm by 30% of the first page's usable
      height, and a spacer; no other block of the story is an image. */
  lemma PhotoOnlyWhenPresent(data: Record, photo: Option<string>, photoExists: bool, h: real)
    ensures var s := StorySpec(data, photo, photoExists, h);
      forall i :: 0 <= i < |s| ==> (s[i].Image? <==> i == 1 && photo.Some? && photoExists)
    ensures photo.Some? && photoExists ==>
      StorySpec(data, photo, photoExists, h)[..3] ==
        [Spacer(VEHICLE_TOP_BOTTOM_GAP_PT),
         Image(photo.value, MAX_PHOTO_WIDTH, MAX_VEHICLE_RATIO * h),
         Spacer(VEHICLE_TOP_BOTTOM_GAP_PT)]
  {
    var pg := PhotoGroup(photo, photoExists, h);
    var body := DataSections(data) + PriceCallout(data) + ServicesSection() + ClosingSections();
    BodyHasNoImages(data);
    assert StorySpec(data, photo, photoExists, h) == pg + body;
    ImagesOnlyInFront(pg, body);
  }

  /** In `front + rest` with no image in `rest`, every image sits in `front`. */
  lemma ImagesOnlyInFront(front: seq<Block>, rest: seq<Block>)
    requires NoImages(rest)
    ensures forall i :: 0 <= i < |front + rest| ==> ((front + rest)[i].Image? <==> i < |front| && front[i].Image?)
  {
  }

  /** Every labelled line renders the record's value for its key, or "N.D." when the
      key is missing; no lookup can fail. */
  lemma FieldRendered(data: Record, photo: Option<string>, photoExists: bool, h: real, j: nat)
    requires j < |ALL_FIELDS|
    ensures var s := StorySpec(data, photo, photoExists, h);
      var f := ALL_FIELDS[j];
      var at := |PhotoGroup(photo, photoExists, h)| + FieldPosition(j);
      && at < |s|
      && s[at] == Paragraph(f.caption + Get(data, f.key, NOT_AVAILABLE) + f.unit, Base)
      && (f.key in data ==> s[at].text == f.caption + data[f.key] + f.unit)
      && (f.key !in data ==> s[at].text == f.caption + NOT_AVAILABLE + f.unit)
  {
    var pg, ds := PhotoGroup(photo, photoExists, h), DataSections(data);
    var rest := PriceCallout(data) + ServicesSection() + ClosingSections();
    assert StorySpec(data, photo, photoExists, h) == pg + ds + rest;
    IndexInMiddle(pg, ds, rest, FieldPosition(j));
    DataSectionsField(data, j);
  }

  /** The `j`-th labelled line of the data sections, at its position. */
  lemma DataSectionsField(data: Record, j: nat)
    requires j < |ALL_FIELDS|
    ensures FieldPosition(j) < 17 && DataSections(data)[FieldPosition(j)] == FieldLine(data, ALL_FIELDS[j])
  {
    DataSectionsListed(data);
    if j < 4 {
      assert ALL_FIELDS[j] == CLIENT_FIELDS[j];
    } else if j < 9 {
      assert ALL_FIELDS[j] == VEHICLE_FIELDS[j - 4];
    } else {
      assert ALL_FIELDS[j] == ECONOMIC_FIELDS[j - 9];
    }
  }

  /** Indexing into the middle part of a three-part concatenation. */
  lemma IndexInMiddle(a: seq<Block>, m: seq<Block>, b: seq<Block>, p: nat)
    requires p < |m|
    ensures |a| + p < |a + m + b| && (a + m + b)[|a| + p] == m[p]
  {
  }

  /** The price callout, right after the economic terms. When the monthly fee is shown
      it is a spacer, the fee followed by " euro + IVA al mese" in the price style and
      the italic reassurance note; otherwise it is the single line "Canone mensile:
      N.D.". The price style and the italic note appear nowhere else. */
  lemma PriceCalloutPolicy(data: Record, photo: Option<string>, photoExists: bool, h: real)
    ensures var s := StorySpec(data, photo, photoExists, h);
      var k := |PhotoGroup(photo, photoExists, h)| + 17;
      var price := Get(data, PRICE_KEY, NOT_AVAILABLE);
      && k + 3 <= |s|
      && (ShowsPrice(price) ==>
            PRICE_KEY in data
            && s[k..k + 3] == [PRICE_SPACER, Paragraph(price + " euro + IVA al mese", Price), PRICE_NOTE])
      && (s[k] == PRICE_MISSING <==> !ShowsPrice(price))
      && ((exists i :: 0 <= i < |s| && s[i].Paragraph? && s[i].style == Price) <==> ShowsPrice(price))
      && ((exists i :: 0 <= i < |s| && s[i].Paragraph? && s[i].style == Italic) <==> ShowsPrice(price))
  {
    var s := StorySpec(data, photo, photoExists, h);
    var pg, ds, pc, ss, cs := PhotoGroup(photo, photoExists, h), DataSections(data), PriceCallout(data), ServicesSection(), ClosingSections();
    var k := |pg| + 17;
    var price := Get(data, PRICE_KEY, NOT_AVAILABLE);
    assert s == pg + ds + pc + ss + cs;
    if PRICE_KEY !in data {
      NotAvailableIsHidden();
    }
    CalloutHoldsAccentStyles(data, photo, photoExists, h);
    if ShowsPrice(price) {
      assert s[k..k + 3] == pc;
      assert s[k + 1].Paragraph? && s[k + 1].style == Price;
      assert s[k + 2].Paragraph? && s[k + 2].style == Italic;
    } else {
      assert s[k] == pc[0];
    }
  }

  /** Only the price callout can hold a paragraph in the price or the italic style. */
  lemma CalloutHoldsAccentStyles(data: Record, photo: Option<string>, photoExists: bool, h: real)
    ensures var s := StorySpec(data, photo, photoExists, h);
      var k := |PhotoGroup(photo, photoExists, h)| + 17;
      forall i :: 0 <= i < |s| && !Plain(s[i]) ==>
        k <= i < k + |PriceCallout(data)| && s[i] == PriceCallout(data)[i - k]
  {
    var pg, ds, pc, ss, cs := PhotoGroup(photo, photoExists, h), DataSections(data), PriceCallout(data), ServicesSection(), ClosingSections();
    DataSectionsPlain(data);
    ServicesSectionPlain();
    ClosingSectionsPlain();
    assert AllPlain(pg);
    AllPlainConcat(pg, ds);
    AllPlainConcat(ss, cs);
    assert StorySpec(data, photo, photoExists, h) == (pg + ds) + pc + (ss + cs);
    PlainOutside(pg + ds, pc, ss + cs);
  }

  /** Only the middle part of `a + m + b` can hold a block that is not plain. */
  lemma PlainOutside(a: seq<Block>, m: seq<Block>, b: seq<Block>)
    requires AllPlain(a) && AllPlain(b)
    ensures forall i :: 0 <= i < |a + m + b| && !Plain((a + m + b)[i]) ==>
      |a| <= i < |a| + |m| && (a + m + b)[i] == m[i - |a|]
  {
    var s := a + m + b;
    assert forall i :: 0 <= i < |a| ==> s[i] == a[i];
    assert forall i :: |a| + |m| <= i < |s| ==> s[i] == b[i - |a| - |m|];
  }

  /** The marker itself never shows as a price, so a missing fee takes the plain line. */
  lemma NotAvailableIsHidden()
    ensures !ShowsPrice(NOT_AVAILABLE)
  {
    var r := Lower(NOT_AVAILABLE);
    assert r[0] == 'n' && r[1] == '.' && r[2] == 'd';
    assert r[..3] == "n.d";
  }

  /** The price is shown exactly when the fee is non-empty and does not begin with
      'N' or 'n', then '.', then 'D' or 'd'; so "", "N.D.", "n.d" and "n.d. (da
      definire)" all take the plain line. */
  lemma ShowsPriceExactly(price: string)
    ensures ShowsPrice(price) <==>
      price != "" && !(|price| >= 3 && (price[0] == 'N' || price[0] == 'n') && price[1] == '.' && (price[2] == 'D' || price[2] == 'd'))
  {
    var r := Lower(price);
    if |price| >= 3 {
      assert r[..3] == "n.d" <==> r[0] == 'n' && r[1] == '.' && r[2] == 'd';
    }
  }

  /** The services section: a spacer, its title, then exactly the eight services in
      order, each prefixed "- ", and then the spacer opening the next section. */
  lemma ServicesListed(data: Record, photo: Option<string>, photoExists: bool, h: real)
    ensures var s := StorySpec(data, photo, photoExists, h);
      var m := |PhotoGroup(photo, photoExists, h)| + 17 + |PriceCallout(data)|;
      && m + 11 <= |s|
      && s[m] == SECTION_SPACER && s[m + 1] == Paragraph("SERVIZI INCLUSI", Title)
      && (forall i :: 0 <= i < 8 ==> s[m + 2 + i] == Paragraph("- " + SERVICES[i], Base))
      && s[m + 10] == SECTION_SPACER
  {
    var s := StorySpec(data, photo, photoExists, h);
    var pg, ds, pc, ss, cs := PhotoGroup(photo, photoExists, h), DataSections(data), PriceCallout(data), ServicesSection(), ClosingSections();
    var m := |pg| + 17 + |pc|;
    assert s == pg + ds + pc + ss + cs;
    assert s[m..m + 10] == ss;
    assert s[m + 10] == cs[0];
    ClosingSectionsListed();
  }

  /** The story reads the record only through `data.get(key, "N.D.")` on its thirteen
      keys: two records that agree on those lookups give the same story. */
  lemma StoryReadsOnlyLookups(d1: Record, d2: Record, photo: Option<string>, photoExists: bool, h: real)
    requires forall k :: k in StoryKeys() ==> Get(d1, k, NOT_AVAILABLE) == Get(d2, k, NOT_AVAILABLE)
    ensures StorySpec(d1, photo, photoExists, h) == StorySpec(d2, photo, photoExists, h)
  {
    DataSectionsReadOnlyLookups(d1, d2);
    assert PRICE_KEY == StoryKeys()[12];
    assert PriceCallout(d1) == PriceCallout(d2);
  }

  lemma DataSectionsReadOnlyLookups(d1: Record, d2: Record)
    requires forall k :: k in StoryKeys() ==> Get(d1, k, NOT_AVAILABLE) == Get(d2, k, NOT_AVAILABLE)
    ensures DataSections(d1) == DataSections(d2)
  {
    forall j | 0 <= j < |ALL_FIELDS|
      ensures FieldLine(d1, ALL_FIELDS[j]) == FieldLine(d2, ALL_FIELDS[j])
    {
      assert ALL_FIELDS[j].key == StoryKeys()[j];
    }
    DataSectionsListed(d1);
    DataSectionsListed(d2);
    assert CLIENT_FIELDS == ALL_FIELDS[..4];
    assert VEHICLE_FIELDS == ALL_FIELDS[4..9];
    assert ECONOMIC_FIELDS == ALL_FIELDS[9..];
  }
}
