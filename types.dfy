/** The records the front end passes around (types.ts) and the initial
    store settings (constants.ts). Prices, totals and the change amount
    are integer cents; ids and table numbers are strings as in the source. */
module Types {

  datatype Option<T> = None | Some(value: T)

  /** A JavaScript string that is truthy: present and not empty. */
  predicate Filled(s: Option<string>)
  {
    s.Some? && s.value != ""
  }

  datatype OrderStatus = Preparando | Pronto | Entregue | Cancelado

  datatype OrderType = Mesa | Balcao | Entrega

  datatype PaymentMethod = Pix | Cartao | Dinheiro

  datatype Product = Product(
    id: string,
    name: string,
    description: string,
    price: int,
    category: string,
    imageUrl: string,
    isActive: bool,
    featuredDay: Option<int>)

  /** A cart or order line: name and price are copied from the product
      when the line is created and never looked up again. */
  datatype OrderItem = OrderItem(productId: string, name: string, quantity: nat, price: int)

  /** An order record. `paymentMethod`, `deliveryAddress`, `notes` and
      `changeFor` are written by the digital menu's checkout although the
      declared interface omits them. */
  datatype Order = Order(
    id: string,
    orderType: OrderType,
    tableNumber: Option<string>,
    customerName: Option<string>,
    items: seq<OrderItem>,
    status: OrderStatus,
    total: int,
    createdAt: int,
    paymentMethod: Option<PaymentMethod>,
    deliveryAddress: Option<string>,
    notes: Option<string>,
    changeFor: Option<int>)

  function OrderId(o: Order): string { o.id }

  function ProductId(p: Product): string { p.id }

  /** The test `o => o.status === s`, named so that every use is the same function. */
  function StatusIs(s: OrderStatus): Order -> bool
  {
    (o: Order) => o.status == s
  }

  function LineProductId(l: OrderItem): string { l.productId }

  datatype PrinterWidth = Mm80 | Mm58

  datatype StoreSettings = StoreSettings(
    isDeliveryActive: bool,
    isTableOrderActive: bool,
    isCounterPickupActive: bool,
    storeName: string,
    logoUrl: string,
    primaryColor: string,
    secondaryColor: string,
    canWaitstaffFinishOrder: bool,
    canWaitstaffCancelItems: bool,
    thermalPrinterWidth: PrinterWidth)

  /** `keyof StoreSettings` */
  datatype SettingsKey =
    | IsDeliveryActive | IsTableOrderActive | IsCounterPickupActive
    | StoreName | LogoUrl | PrimaryColor | SecondaryColor
    | CanWaitstaffFinishOrder | CanWaitstaffCancelItems
    | ThermalPrinterWidth

  /** The value held under one key of the settings record. */
  datatype SettingValue = Flag(on: bool) | Text(text: string) | Width(width: PrinterWidth)

  /** `settings[key]` */
  function Get(s: StoreSettings, k: SettingsKey): SettingValue
  {
    match k
    case IsDeliveryActive => Flag(s.isDeliveryActive)
    case IsTableOrderActive => Flag(s.isTableOrderActive)
    case IsCounterPickupActive => Flag(s.isCounterPickupActive)
    case StoreName => Text(s.storeName)
    case LogoUrl => Text(s.logoUrl)
    case PrimaryColor => Text(s.primaryColor)
    case SecondaryColor => Text(s.secondaryColor)
    case CanWaitstaffFinishOrder => Flag(s.canWaitstaffFinishOrder)
    case CanWaitstaffCancelItems => Flag(s.canWaitstaffCancelItems)
    case ThermalPrinterWidth => Width(s.thermalPrinterWidth)
  }

  /** `v` has the type the settings record declares for `k`. */
  predicate Fits(k: SettingsKey, v: SettingValue)
  {
    match k
    case StoreName | LogoUrl | PrimaryColor | SecondaryColor => v.Text?
    case ThermalPrinterWidth => v.Width?
    case _ => v.Flag?
  }

  /** `{ ...s, [k]: v }`: the record with `v` under `k` and every other
      key as it was. */
  function With(s: StoreSettings, k: SettingsKey, v: SettingValue): (r: StoreSettings)
    requires Fits(k, v)
    ensures Get(r, k) == v
    ensures forall j :: j != k ==> Get(r, j) == Get(s, j)
  {
    match k
    case IsDeliveryActive => s.(isDeliveryActive := v.on)
    case IsTableOrderActive => s.(isTableOrderActive := v.on)
    case IsCounterPickupActive => s.(isCounterPickupActive := v.on)
    case StoreName => s.(storeName := v.text)
    case LogoUrl => s.(logoUrl := v.text)
    case PrimaryColor => s.(primaryColor := v.text)
    case SecondaryColor => s.(secondaryColor := v.text)
    case CanWaitstaffFinishOrder => s.(canWaitstaffFinishOrder := v.on)
    case CanWaitstaffCancelItems => s.(canWaitstaffCancelItems := v.on)
    case ThermalPrinterWidth => s.(thermalPrinterWidth := v.width)
  }

  /** Two settings records that agree on every key are the same record. */
  lemma SettingsExtensionality(a: StoreSettings, b: StoreSettings)
    requires forall k :: Get(a, k) == Get(b, k)
    ensures a == b
  {
    assert Get(a, IsDeliveryActive) == Get(b, IsDeliveryActive);
    assert Get(a, IsTableOrderActive) == Get(b, IsTableOrderActive);
    assert Get(a, IsCounterPickupActive) == Get(b, IsCounterPickupActive);
    assert Get(a, StoreName) == Get(b, StoreName);
    assert Get(a, LogoUrl) == Get(b, LogoUrl);
    assert Get(a, PrimaryColor) == Get(b, PrimaryColor);
    assert Get(a, SecondaryColor) == Get(b, SecondaryColor);
    assert Get(a, CanWaitstaffFinishOrder) == Get(b, CanWaitstaffFinishOrder);
    assert Get(a, CanWaitstaffCancelItems) == Get(b, CanWaitstaffCancelItems);
    assert Get(a, ThermalPrinterWidth) == Get(b, ThermalPrinterWidth);
  }

  /** INITIAL_SETTINGS: every channel open, the store's branding, waitstaff
      permissions off and 80 mm receipt paper. */
  const InitialSettings := StoreSettings(
    isDeliveryActive := true,
    isTableOrderActive := true,
    isCounterPickupActive := true,
    storeName := "Vovó Guta",
    logoUrl := "https://images.tcdn.com.br/img/img_prod/1126742/1665494238_logo_vovo_guta_2.jpg",
    primaryColor := "#3d251e",
    secondaryColor := "#f68c3e",
    canWaitstaffFinishOrder := false,
    canWaitstaffCancelItems := false,
    thermalPrinterWidth := Mm80)

  /** The initial settings hold a well-typed value under every key, with
      all three order channels on and both waitstaff permissions off. */
  lemma InitialSettingsShape()
    ensures forall k :: Fits(k, Get(InitialSettings, k))
    ensures forall k :: k in {IsDeliveryActive, IsTableOrderActive, IsCounterPickupActive} ==> Get(InitialSettings, k) == Flag(true)
    ensures Get(InitialSettings, CanWaitstaffFinishOrder) == Flag(false)
    ensures Get(InitialSettings, CanWaitstaffCancelItems) == Flag(false)
    ensures Get(InitialSettings, ThermalPrinterWidth) == Width(Mm80)
  {
  }
}
