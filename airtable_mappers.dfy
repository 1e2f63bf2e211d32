/** The record mappers of src/hooks/useAirtable.ts: raw rows of the hosted table service
    (a field dictionary per row) become `Client` and `Plat` objects, with fallbacks for
    missing fields, and a new client becomes the field dictionary posted to "Client DB". */
module AirtableMappers {
  import opened Wrappers

  /** A JSON field value as the table service returns it. `Undefined` is a missing key. */
  datatype Value = Undefined | Null | Str(s: string) | Num(x: real) | Bool(b: bool)

  /** JavaScript truthiness (NaN is not modelled). */
  predicate Truthy(v: Value) {
    match v
    case Undefined => false
    case Null => false
    case Str(s) => s != ""
    case Num(x) => x != 0.0
    case Bool(b) => b
  }

  /** `v || fallback`. */
  function OrElse(v: Value, fallback: Value): (r: Value)
    ensures Truthy(v) ==> r == v
    ensures !Truthy(v) ==> r == fallback
  {
    if Truthy(v) then v else fallback
  }

  /** A row's field dictionary, keyed by column name. */
  type Fields = map<string, Value>

  /** `record.fields[name]`: a missing column reads as `undefined`. */
  function Field(fields: Fields, name: string): Value {
    if name in fields then fields[name] else Undefined
  }

  /** A row as listed by the table service. */
  datatype AirtableRecord = AirtableRecord(id: string, fields: Fields, createdTime: string)

  /** A list response (`records`; the paging `offset` is not used by the mappers). */
  datatype AirtableResponse = AirtableResponse(records: seq<AirtableRecord>)

  // ---------------------------------------------------------------------------------------
  // Clients (`useClients`)

  datatype Client = Client(
    id: string, nom: Value, prenom: Value, email: Value, telephone: Value, adresse: Value,
    dateNaissance: Value, preferences: Value, createdTime: string)

  /** The `map` callback of `useClients`. */
  function ToClient(r: AirtableRecord): Client {
    Client(
      r.id,
      OrElse(Field(r.fields, "Nom"), Str("")),
      OrElse(Field(r.fields, "Prenom"), Str("")),
      OrElse(Field(r.fields, "Email"), Str("")),
      Field(r.fields, "Telephone"),
      Field(r.fields, "Adresse"),
      Field(r.fields, "Date de naissance"),
      Field(r.fields, "Preferences"),
      r.createdTime)
  }

  /** `data?.records.map(...) || []`. */
  function Clients(data: Option<AirtableResponse>): (cs: seq<Client>)
    ensures data.None? ==> cs == []
    ensures data.Some? ==> (
      && |cs| == |data.value.records|
      && forall i :: 0 <= i < |cs| ==> cs[i] == ToClient(data.value.records[i]))
  {
    match data
    case None => []
    case Some(d) => seq(|d.records|, i requires 0 <= i < |d.records| => ToClient(d.records[i]))
  }

  /** One client per record, in record order, with `id` and `createdTime` copied; nom,
      prenom and email fall back to "" when their column is missing or falsy, and always end
      up truthy or ""; the other columns pass through as they are. */
  lemma ClientsFollowRecords(data: AirtableResponse, i: nat)
    requires i < |data.records|
    ensures var c := Clients(Some(data))[i];
      var f := data.records[i].fields;
      && c.id == data.records[i].id
      && c.createdTime == data.records[i].createdTime
      && (Truthy(Field(f, "Nom")) ==> c.nom == Field(f, "Nom"))
      && (!Truthy(Field(f, "Nom")) ==> c.nom == Str(""))
      && (Truthy(Field(f, "Prenom")) ==> c.prenom == Field(f, "Prenom"))
      && (!Truthy(Field(f, "Prenom")) ==> c.prenom == Str(""))
      && (Truthy(Field(f, "Email")) ==> c.email == Field(f, "Email"))
      && (!Truthy(Field(f, "Email")) ==> c.email == Str(""))
      && (Truthy(c.nom) || c.nom == Str(""))
      && c.telephone == Field(f, "Telephone")
      && c.adresse == Field(f, "Adresse")
      && c.dateNaissance == Field(f, "Date de naissance")
      && c.preferences == Field(f, "Preferences")
  {
  }

  // ---------------------------------------------------------------------------------------
  // Dishes (`usePlats`)

  datatype Dish = Dish(
    id: string, nom: Value, description: Value, prix: Value, categorie: Value,
    ingredients: Value, disponible: bool, createdTime: string)

  /** The `map` callback of `usePlats`. */
  function ToDish(r: AirtableRecord): Dish {
    Dish(
      r.id,
      OrElse(Field(r.fields, "Nom"), Str("")),
      Field(r.fields, "Description"),
      Field(r.fields, "Prix"),
      Field(r.fields, "Categorie"),
      Field(r.fields, "Ingredients"),
      Field(r.fields, "Disponible") != Bool(false),
      r.createdTime)
  }

  /** `data?.records.map(...) || []`. */
  function Dishes(data: Option<AirtableResponse>): (ds: seq<Dish>)
    ensures data.None? ==> ds == []
    ensures data.Some? ==> (
      && |ds| == |data.value.records|
      && forall i :: 0 <= i < |ds| ==> ds[i] == ToDish(data.value.records[i]))
  {
    match data
    case None => []
    case Some(d) => seq(|d.records|, i requires 0 <= i < |d.records| => ToDish(d.records[i]))
  }

  /** One dish per record, in order, with its id; a dish is unavailable exactly when its
      "Disponible" column holds the boolean false, so a missing column means available. */
  lemma DishesFollowRecords(data: AirtableResponse, i: nat)
    requires i < |data.records|
    ensures var d := Dishes(Some(data))[i];
      var f := data.records[i].fields;
      && d.id == data.records[i].id
      && d.createdTime == data.records[i].createdTime
      && (!d.disponible <==> "Disponible" in f && f["Disponible"] == Bool(false))
      && ("Disponible" !in f ==> d.disponible)
      && (Truthy(Field(f, "Nom")) ==> d.nom == Field(f, "Nom"))
      && (!Truthy(Field(f, "Nom")) ==> d.nom == Str(""))
      && d.prix == Field(f, "Prix")
  {
  }

  // ---------------------------------------------------------------------------------------
  // New clients (`useCreateClient`)

  /** A `Partial<Client>` from the profile form; absent properties are `Undefined`. */
  datatype ClientDraft = ClientDraft(
    nom: Value, prenom: Value, email: Value, telephone: Value, adresse: Value,
    dateNaissance: Value, preferences: Value)

  /** The table the new client is created in. */
  const ClientTable := "Client DB"

  /** The `fields` object built by `useCreateClient`: one fixed column per property. */
  function NewClientFields(d: ClientDraft): (f: Fields)
    ensures f.Keys == {"Nom", "Prenom", "Email", "Telephone", "Adresse", "Date de naissance", "Preferences"}
    ensures f["Nom"] == d.nom && f["Prenom"] == d.prenom && f["Email"] == d.email
    ensures f["Telephone"] == d.telephone && f["Adresse"] == d.adresse
    ensures f["Date de naissance"] == d.dateNaissance && f["Preferences"] == d.preferences
  {
    map[
      "Nom" := d.nom, "Prenom" := d.prenom, "Email" := d.email, "Telephone" := d.telephone,
      "Adresse" := d.adresse, "Date de naissance" := d.dateNaissance,
      "Preferences" := d.preferences]
  }

  /** A create call: target table and fields. */
  datatype CreateRequest = CreateRequest(table: string, fields: Fields)

  /** The create call of `useCreateClient`. */
  function NewClientRequest(d: ClientDraft): (req: CreateRequest)
    ensures req.table == "Client DB"
    ensures req.fields == NewClientFields(d)
  {
    CreateRequest(ClientTable, NewClientFields(d))
  }

  /** The posted JSON body: `JSON.stringify` omits properties whose value is `undefined`. */
  function Serialized(f: Fields): (g: Fields)
    ensures forall k :: k in g ==> g[k] != Undefined
    ensures forall k :: Field(g, k) == Field(f, k)
  {
    map k | k in f && f[k] != Undefined :: f[k]
  }

  /** Writing a client and reading the row back agree on every column: each property comes
      back from the column it was written to, with the "" fallback for a falsy name or e-mail,
      whether or not the `undefined` properties were dropped from the body. */
  lemma NewClientReadsBack(d: ClientDraft, id: string, createdTime: string, dropUndefined: bool)
    ensures var body := NewClientRequest(d).fields;
      var stored := if dropUndefined then Serialized(body) else body;
      ToClient(AirtableRecord(id, stored, createdTime)) ==
        Client(id, OrElse(d.nom, Str("")), OrElse(d.prenom, Str("")), OrElse(d.email, Str("")),
               d.telephone, d.adresse, d.dateNaissance, d.preferences, createdTime)
  {
    var body := NewClientRequest(d).fields;
    var stored := if dropUndefined then Serialized(body) else body;
    assert forall k :: Field(stored, k) == Field(body, k);
  }
}
