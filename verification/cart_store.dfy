/**
 The cart provider's state: the in-memory `products` snapshot and the device's
 key/value storage. Every mutation goes through `updateProducts`, which first
 writes the whole new snapshot under the cart's storage key and then replaces
 the in-memory snapshot with the same value. Values are stored as carts: the
 JSON encoding between the two is not part of this model.
 */
module CartStore {
  import opened CartLines
  import CartOps

  /** The storage key under which the cart snapshot is kept. */
  const StorageKey: string := "@GoMarketplace:products"

  datatype Store = Store(products: Cart, storage: map<string, Cart>)

  /** The actions the provider exposes to its consumers. */
  datatype Action = AddToCart(product: Product) | Increment(id: string) | Decrement(id: string)

  /** The persisted snapshot and the in-memory snapshot are the same cart. */
  predicate Synced(s: Store) {
    StorageKey in s.storage && s.storage[StorageKey] == s.products
  }

  /** Every storage key other than the cart's keeps its presence and its value. */
  predicate OtherKeysUnchanged(before: map<string, Cart>, after: map<string, Cart>) {
    && after.Keys - {StorageKey} == before.Keys - {StorageKey}
    && (forall k :: k in before && k != StorageKey ==> k in after && after[k] == before[k])
  }

  /**
   The provider before its first load: no product is in the cart, so it meets
   the cart invariants whatever the device holds, and storage is not touched.
   */
  function Initial(storage: map<string, Cart>): (s: Store)
    ensures forall id :: !HasId(s.products, id)
    ensures Valid(s.products)
    ensures s.storage == storage
  {
    Store([], storage)
  }

  /**
   `loadProducts`: a snapshot found under the storage key replaces the in-memory
   cart; with nothing stored the state is left as it was. Storage is only read.
   */
  function Load(s: Store): (r: Store)
    ensures r.storage == s.storage
    ensures StorageKey in s.storage ==> Synced(r)
    ensures StorageKey !in s.storage ==> r == s
  {
    if StorageKey in s.storage then s.(products := s.storage[StorageKey]) else s
  }

  /**
   `updateProducts(newValue)`: the new snapshot is written under the storage key
   and becomes the in-memory cart; every other key of the storage is untouched.
   */
  function UpdateProducts(s: Store, newValue: Cart): (r: Store)
    ensures Synced(r) && r.products == newValue
    ensures OtherKeysUnchanged(s.storage, r.storage)
  {
    Store(newValue, s.storage[StorageKey := newValue])
  }

  /** The provider's `increment`: the incremented cart written through. */
  function IncrementStep(s: Store, id: string): (r: Store)
    ensures Synced(r) && r.products == CartOps.Increment(s.products, id)
    ensures OtherKeysUnchanged(s.storage, r.storage)
  {
    UpdateProducts(s, CartOps.Increment(s.products, id))
  }

  /** The provider's `decrement`: the decremented cart written through. */
  function DecrementStep(s: Store, id: string): (r: Store)
    ensures Synced(r) && r.products == CartOps.Decrement(s.products, id)
    ensures OtherKeysUnchanged(s.storage, r.storage)
  {
    UpdateProducts(s, CartOps.Decrement(s.products, id))
  }

  /**
   The provider's `addToCart`: an unknown product is appended and written
   through; a known one is handed to the provider's `increment`.
   */
  function AddToCartStep(s: Store, p: Product): (r: Store)
    ensures Synced(r) && r.products == CartOps.AddToCart(s.products, p)
    ensures OtherKeysUnchanged(s.storage, r.storage)
  {
    if CartOps.Find(s.products, p.id).None? then UpdateProducts(s, s.products + [NewLine(p)])
    else IncrementStep(s, p.id)
  }

  /** One action, dispatched to the provider function it names. */
  function Step(s: Store, a: Action): (r: Store)
    ensures Synced(r)
    ensures OtherKeysUnchanged(s.storage, r.storage)
  {
    match a
    case AddToCart(p) => AddToCartStep(s, p)
    case Increment(id) => IncrementStep(s, id)
    case Decrement(id) => DecrementStep(s, id)
  }

  /** The actions applied one after another, each awaited before the next starts. */
  function Run(s: Store, actions: seq<Action>): Store
    decreases |actions|
  {
    if actions == [] then s else Run(Step(s, actions[0]), actions[1..])
  }

  /** After at least one action the persisted snapshot equals the in-memory cart. */
  lemma {:induction false} RunSynced(s: Store, actions: seq<Action>)
    requires actions != []
    ensures Synced(Run(s, actions))
    decreases |actions|
  {
    if actions[1..] != [] {
      RunSynced(Step(s, actions[0]), actions[1..]);
    }
  }

  /** Every action keeps the cart invariants. */
  lemma StepValid(s: Store, a: Action)
    requires Valid(s.products)
    ensures Valid(Step(s, a).products)
  {
  }

  /** Any sequence of actions keeps the cart invariants. */
  lemma {:induction false} RunValid(s: Store, actions: seq<Action>)
    requires Valid(s.products)
    ensures Valid(Run(s, actions).products)
    decreases |actions|
  {
    if actions != [] {
      StepValid(s, actions[0]);
      RunValid(Step(s, actions[0]), actions[1..]);
    }
  }

  /**
   Starting from the empty cart, whatever the device holds, every sequence of
   actions leaves a cart with unique identifiers and positive quantities; so
   does starting from a loaded snapshot, when that snapshot satisfies the
   invariants (the load does not check it).
   */
  lemma ReachableValid(storage: map<string, Cart>, actions: seq<Action>)
    ensures Valid(Run(Initial(storage), actions).products)
    ensures (StorageKey in storage ==> Valid(storage[StorageKey])) ==>
      Valid(Run(Load(Initial(storage)), actions).products)
  {
    RunValid(Initial(storage), actions);
    if StorageKey in storage ==> Valid(storage[StorageKey]) {
      RunValid(Load(Initial(storage)), actions);
    }
  }

  /**
   The snapshot persisted by an action is what a fresh provider loads on the
   next start: reloading reproduces the in-memory cart.
   */
  lemma ReloadReproduces(s: Store, a: Action)
    ensures Load(Initial(Step(s, a).storage)).products == Step(s, a).products
  {
  }
}
