/**
 * The data-service configuration and the record types shared by the storefront and the admin panel.
 * Prices and amounts are integer cents; timestamps and identifiers are the service's strings.
 */
module Supabase {
  import opened Wrappers

  // ---------------------------------------------------------------- configuration

  /** The two environment variables, each possibly unset. */
  datatype Env = Env(url: Option<string>, anonKey: Option<string>)

  /** The connection settings the client is built from. */
  datatype Config = Config(url: string, anonKey: string)

  /** The placeholder values the build-time client is created with. */
  const DummyUrl: string := "https://dummy.supabase.co"
  const DummyKey: string := "dummy-key"

  /** `x || ""` for a value that may be unset, as `process.env.X || ""` reads a variable. */
  function OrEmpty(v: Option<string>): (r: string)
    ensures v.None? ==> r == ""
    ensures v.Some? ==> r == v.value
  {
    match v
    case None => ""
    case Some(s) => s
  }

  /** `getSupabaseConfig`: each variable, or "" when it is unset. */
  function GetSupabaseConfig(env: Env): (c: Config)
    ensures env.url.None? ==> c.url == ""
    ensures env.anonKey.None? ==> c.anonKey == ""
    ensures env.url.Some? ==> c.url == env.url.value
    ensures env.anonKey.Some? ==> c.anonKey == env.anonKey.value
  {
    Config(OrEmpty(env.url), OrEmpty(env.anonKey))
  }

  /** `isSupabaseConfigured`, given the configuration it reads. */
  predicate IsSupabaseConfigured(c: Config): (r: bool)
    ensures !r <==> c.url in {"", DummyUrl} || c.anonKey in {"", DummyKey}
  {
    c.url != "" && c.anonKey != "" && c.url != DummyUrl && c.anonKey != DummyKey
  }

  /**
   * `createSupabaseClient`: the URL and key the client is created with. On the server, during the
   * build, a missing value makes it fall back to the dummy pair; in the browser the values are used as
   * they are.
   */
  function ClientArgs(c: Config, serverSide: bool): (r: Config)
    ensures serverSide && (c.url == "" || c.anonKey == "") ==> r == Config(DummyUrl, DummyKey)
    ensures !serverSide || (c.url != "" && c.anonKey != "") ==> r == c
  {
    if (c.url == "" || c.anonKey == "") && serverSide then Config(DummyUrl, DummyKey) else c
  }

  /** Empty values and the placeholder values each leave the store unconfigured. */
  lemma UnconfiguredCases(c: Config)
    ensures c.url == "" || c.anonKey == "" ==> !IsSupabaseConfigured(c)
    ensures c.url == DummyUrl || c.anonKey == DummyKey ==> !IsSupabaseConfigured(c)
  {
  }

  /**
   * As seen from the environment: the store is configured exactly when both variables are set to
   * non-empty values that are not the placeholders.
   */
  lemma ConfiguredExactly(env: Env)
    ensures IsSupabaseConfigured(GetSupabaseConfig(env)) <==>
      (env.url.Some? && env.url.value != "" && env.url.value != DummyUrl &&
       env.anonKey.Some? && env.anonKey.value != "" && env.anonKey.value != DummyKey)
    ensures env.url.None? || env.anonKey.None? ==> !IsSupabaseConfigured(GetSupabaseConfig(env))
  {
  }

  /**
   * The dummy client is created only when a value is missing, and then the store reports itself as
   * unconfigured; a configured store always gets a client on its own URL and key.
   */
  lemma DummyClientOnlyWhenUnconfigured(c: Config, serverSide: bool)
    ensures ClientArgs(c, serverSide) == Config(DummyUrl, DummyKey) ==> !IsSupabaseConfigured(c)
    ensures IsSupabaseConfigured(c) ==> ClientArgs(c, serverSide) == c
    ensures c != Config(DummyUrl, DummyKey) && ClientArgs(c, serverSide) == Config(DummyUrl, DummyKey) ==>
      serverSide && (c.url == "" || c.anonKey == "")
  {
  }

  // ---------------------------------------------------------------- records

  datatype Category = Category(id: string, name: string, createdAt: string)

  /** A catalog product; `categories` is the category the pages attach to it after fetching. */
  datatype Product = Product(
    id: string,
    name: string,
    description: Option<string>,
    price: int,
    costPrice: Option<int>,
    categoryId: Option<string>,
    imageUrl: Option<string>,
    stockQuantity: int,
    active: bool,
    createdAt: string,
    updatedAt: string,
    categories: Option<Category>)

  /** The four order states; any state may be set from any other. */
  datatype OrderStatus = Pendente | EmPreparo | Entregue | Cancelado

  /** The string the data service stores for a status. */
  function StatusName(s: OrderStatus): (r: string)
    ensures r in {"pendente", "em_preparo", "entregue", "cancelado"}
  {
    match s
    case Pendente => "pendente"
    case EmPreparo => "em_preparo"
    case Entregue => "entregue"
    case Cancelado => "cancelado"
  }

  /** The status a stored string denotes, if it denotes one. */
  function ParseStatus(s: string): (r: Option<OrderStatus>)
    ensures r.Some? ==> StatusName(r.value) == s
  {
    if s == "pendente" then Some(Pendente)
    else if s == "em_preparo" then Some(EmPreparo)
    else if s == "entregue" then Some(Entregue)
    else if s == "cancelado" then Some(Cancelado)
    else None
  }

  /** Exactly the four status names are statuses, and each has one name. */
  lemma StatusNameRoundTrip(s: OrderStatus, t: string)
    ensures ParseStatus(StatusName(s)) == Some(s)
    ensures ParseStatus(t).Some? <==> t in {"pendente", "em_preparo", "entregue", "cancelado"}
  {
  }

  datatype OrderItem = OrderItem(
    id: string,
    orderId: string,
    productId: string,
    productName: string,
    productPrice: int,
    quantity: int,
    subtotal: int,
    createdAt: string)

  datatype Order = Order(
    id: string,
    customerName: string,
    customerPhone: string,
    customerAddress: string,
    totalAmount: int,
    status: OrderStatus,
    notes: Option<string>,
    createdAt: string,
    updatedAt: string,
    orderItems: Option<seq<OrderItem>>)

  /** A cart line: a product and how many of it. */
  datatype CartItem = CartItem(product: Product, quantity: int)
}
