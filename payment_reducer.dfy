/** The payment reducer: the state held by the payment context and the reducer
    that maps a state and an action to the next state. Every action builds a
    new state from the old one; nothing is updated in place. */
module PaymentReducer {
  import opened PaymentTypes
  import opened Seqs

  /** The two lists and the loading flag held by the store. */
  datatype PaymentState = PaymentState(
    payments: seq<Payment>,
    categories: seq<Category>,
    isLoading: bool)

  /** The nine actions the reducer understands, each with its payload. */
  datatype PaymentAction =
    | AddPayment(payment: Payment)
    | UpdatePayment(payment: Payment)
    | DeletePayment(id: string)
    | AddCategory(category: Category)
    | UpdateCategory(category: Category)
    | DeleteCategory(id: string)
    | SetPayments(newPayments: seq<Payment>)
    | SetCategories(newCategories: seq<Category>)
    | SetLoading(loading: bool)

  /** The three fields of a state, used to say which one an action may change. */
  datatype Field = PaymentsField | CategoriesField | LoadingField

  function PaymentId(p: Payment): string { p.id }
  function CategoryId(c: Category): string { c.id }

  /** The state the store starts in: no payments, eight built-in categories
      (five expense, three income) and not loading. */
  const InitialState: PaymentState := PaymentState(
    [],
    [ Category("1", "Food & Dining", "fork.knife", "#FF6B6B", Expense),
      Category("2", "Transportation", "car.fill", "#4ECDC4", Expense),
      Category("3", "Shopping", "bag.fill", "#45B7D1", Expense),
      Category("4", "Entertainment", "tv.fill", "#96CEB4", Expense),
      Category("5", "Bills & Utilities", "bolt.fill", "#FFEAA7", Expense),
      Category("6", "Salary", "dollarsign.circle.fill", "#DDA0DD", Income),
      Category("7", "Freelance", "briefcase.fill", "#98D8C8", Income),
      Category("8", "Investment", "chart.line.uptrend.xyaxis", "#F7DC6F", Income) ],
    false)

  /** The test `y => key(y) === id`. */
  function KeyIs<T>(key: T -> string, id: string): T -> bool
  {
    (y: T) => key(y) == id
  }

  /** The test `y => key(y) !== id`. */
  function KeyIsNot<T>(key: T -> string, id: string): T -> bool
  {
    (y: T) => key(y) != id
  }

  /** Number of elements of `xs` whose key is `id`. */
  function CountId<T>(xs: seq<T>, key: T -> string, id: string): nat
  {
    |Filter(xs, KeyIs(key, id))|
  }

  /** `xs.map(y => key(y) === key(x) ? x : y)`: every element carrying the
      same key as `x` is replaced by `x`; the others, the length and the order
      of the keys are kept; with no match the list comes back unchanged. */
  function ReplaceById<T>(xs: seq<T>, key: T -> string, x: T): (r: seq<T>)
    ensures |r| == |xs|
    ensures forall i :: 0 <= i < |xs| && key(xs[i]) == key(x) ==> r[i] == x
    ensures forall i :: 0 <= i < |xs| && key(xs[i]) != key(x) ==> r[i] == xs[i]
    ensures (forall i :: 0 <= i < |xs| ==> key(xs[i]) != key(x)) ==> r == xs
    ensures Map(r, key) == Map(xs, key)
  {
    Map(xs, (y: T) => if key(y) == key(x) then x else y)
  }

  /** `xs.filter(y => key(y) !== id)`: nothing with key `id` is left, every
      other element is kept in order, the length drops by the number of
      matches, and with no match the list comes back unchanged. */
  function RemoveById<T>(xs: seq<T>, key: T -> string, id: string): (r: seq<T>)
    ensures forall i :: 0 <= i < |r| ==> key(r[i]) != id
    ensures forall i :: 0 <= i < |xs| && key(xs[i]) != id ==> xs[i] in r
    ensures IsSubsequence(r, xs)
    ensures |r| == |xs| - CountId(xs, key, id)
    ensures (forall i :: 0 <= i < |xs| ==> key(xs[i]) != id) ==> r == xs
  {
    FilterIsSubsequence(xs, KeyIsNot(key, id));
    FilterMembers(xs, KeyIsNot(key, id));
    FilterComplementLength(xs, KeyIsNot(key, id), KeyIs(key, id));
    Filter(xs, KeyIsNot(key, id))
  }

  /** The result of a removal is determined by what `RemoveById` promises:
      any subsequence of `xs` free of key `id` and of that length is it. */
  lemma RemoveByIdExactly<T>(s: seq<T>, xs: seq<T>, key: T -> string, id: string)
    requires IsSubsequence(s, xs)
    requires forall i :: 0 <= i < |s| ==> key(s[i]) != id
    requires |s| == |xs| - CountId(xs, key, id)
    ensures s == RemoveById(xs, key, id)
  {
    var keep := KeyIsNot(key, id);
    assert RemoveById(xs, key, id) == Filter(xs, keep);
    assert |s| == |Filter(xs, keep)|;
    assert forall i :: 0 <= i < |s| ==> keep(s[i]);
    FilterUnique(s, xs, keep);
  }

  /** Removing the same key twice is removing it once. */
  lemma RemoveByIdIdempotent<T>(xs: seq<T>, key: T -> string, id: string)
    ensures RemoveById(RemoveById(xs, key, id), key, id) == RemoveById(xs, key, id)
  {
  }

  /** Replacing by the same record twice is replacing once. */
  lemma ReplaceByIdIdempotent<T>(xs: seq<T>, key: T -> string, x: T)
    ensures ReplaceById(ReplaceById(xs, key, x), key, x) == ReplaceById(xs, key, x)
  {
  }

  /** The only field an action may change. */
  function Target(a: PaymentAction): Field
  {
    match a
    case AddPayment(_) | UpdatePayment(_) | DeletePayment(_) | SetPayments(_) => PaymentsField
    case AddCategory(_) | UpdateCategory(_) | DeleteCategory(_) | SetCategories(_) => CategoriesField
    case SetLoading(_) => LoadingField
  }

  /** The reducer. Every branch copies the old state and rewrites one field;
      the other two are carried over unchanged. */
  function Step(s: PaymentState, a: PaymentAction): (r: PaymentState)
    ensures Target(a) != PaymentsField ==> r.payments == s.payments
    ensures Target(a) != CategoriesField ==> r.categories == s.categories
    ensures Target(a) != LoadingField ==> r.isLoading == s.isLoading
  {
    match a
    case AddPayment(p) => s.(payments := s.payments + [p])
    case UpdatePayment(p) => s.(payments := ReplaceById(s.payments, PaymentId, p))
    case DeletePayment(id) => s.(payments := RemoveById(s.payments, PaymentId, id))
    case AddCategory(c) => s.(categories := s.categories + [c])
    case UpdateCategory(c) => s.(categories := ReplaceById(s.categories, CategoryId, c))
    case DeleteCategory(id) => s.(categories := RemoveById(s.categories, CategoryId, id))
    case SetPayments(ps) => s.(payments := ps)
    case SetCategories(cs) => s.(categories := cs)
    case SetLoading(b) => s.(isLoading := b)
  }

  /** Dispatching a list of actions one after another, as the store does. */
  function Replay(s: PaymentState, actions: seq<PaymentAction>): PaymentState
    decreases |actions|
  {
    if actions == [] then s else Replay(Step(s, actions[0]), actions[1..])
  }

  /** One `ADD_PAYMENT` action per element of `ps`, in order. */
  function AddPayments(ps: seq<Payment>): seq<PaymentAction>
    decreases |ps|
  {
    if ps == [] then [] else [AddPayment(ps[0])] + AddPayments(ps[1..])
  }

  // ---------------------------------------------------------------------
  // What each action does

  lemma StepAddPayment(s: PaymentState, p: Payment)
    ensures Step(s, AddPayment(p)).payments == s.payments + [p]
    ensures Step(s, AddPayment(p)).categories == s.categories
    ensures Step(s, AddPayment(p)).isLoading == s.isLoading
  {
  }

  lemma StepAddCategory(s: PaymentState, c: Category)
    ensures Step(s, AddCategory(c)).categories == s.categories + [c]
    ensures Step(s, AddCategory(c)).payments == s.payments
    ensures Step(s, AddCategory(c)).isLoading == s.isLoading
  {
  }

  lemma StepUpdatePayment(s: PaymentState, p: Payment)
    ensures var r := Step(s, UpdatePayment(p)).payments;
      && |r| == |s.payments|
      && (forall i :: 0 <= i < |r| && s.payments[i].id == p.id ==> r[i] == p)
      && (forall i :: 0 <= i < |r| && s.payments[i].id != p.id ==> r[i] == s.payments[i])
      && ((forall i :: 0 <= i < |r| ==> s.payments[i].id != p.id) ==> r == s.payments)
    ensures Step(s, UpdatePayment(p)).categories == s.categories
    ensures Step(s, UpdatePayment(p)).isLoading == s.isLoading
  {
  }

  lemma StepUpdateCategory(s: PaymentState, c: Category)
    ensures var r := Step(s, UpdateCategory(c)).categories;
      && |r| == |s.categories|
      && (forall i :: 0 <= i < |r| && s.categories[i].id == c.id ==> r[i] == c)
      && (forall i :: 0 <= i < |r| && s.categories[i].id != c.id ==> r[i] == s.categories[i])
      && ((forall i :: 0 <= i < |r| ==> s.categories[i].id != c.id) ==> r == s.categories)
    ensures Step(s, UpdateCategory(c)).payments == s.payments
    ensures Step(s, UpdateCategory(c)).isLoading == s.isLoading
  {
  }

  lemma StepDeletePayment(s: PaymentState, id: string)
    ensures var r := Step(s, DeletePayment(id)).payments;
      && (forall i :: 0 <= i < |r| ==> r[i].id != id)
      && (forall i :: 0 <= i < |s.payments| && s.payments[i].id != id ==> s.payments[i] in r)
      && IsSubsequence(r, s.payments)
      && |r| == |s.payments| - CountId(s.payments, PaymentId, id)
    ensures Step(Step(s, DeletePayment(id)), DeletePayment(id)) == Step(s, DeletePayment(id))
    ensures Step(s, DeletePayment(id)).categories == s.categories
    ensures Step(s, DeletePayment(id)).isLoading == s.isLoading
  {
    var r := RemoveById(s.payments, PaymentId, id);
    assert Step(s, DeletePayment(id)) == s.(payments := r);
    RemoveByIdIdempotent(s.payments, PaymentId, id);
    assert Step(s.(payments := r), DeletePayment(id)) == s.(payments := RemoveById(r, PaymentId, id));
  }

  lemma StepDeleteCategory(s: PaymentState, id: string)
    ensures var r := Step(s, DeleteCategory(id)).categories;
      && (forall i :: 0 <= i < |r| ==> r[i].id != id)
      && (forall i :: 0 <= i < |s.categories| && s.categories[i].id != id ==> s.categories[i] in r)
      && IsSubsequence(r, s.categories)
      && |r| == |s.categories| - CountId(s.categories, CategoryId, id)
    ensures Step(Step(s, DeleteCategory(id)), DeleteCategory(id)) == Step(s, DeleteCategory(id))
    ensures Step(s, DeleteCategory(id)).payments == s.payments
    ensures Step(s, DeleteCategory(id)).isLoading == s.isLoading
  {
    var r := RemoveById(s.categories, CategoryId, id);
    assert Step(s, DeleteCategory(id)) == s.(categories := r);
    RemoveByIdIdempotent(s.categories, CategoryId, id);
    assert Step(s.(categories := r), DeleteCategory(id)) == s.(categories := RemoveById(r, CategoryId, id));
  }

  /** The three setters replace their own field with the payload and only it. */
  lemma StepSetters(s: PaymentState, ps: seq<Payment>, cs: seq<Category>, b: bool)
    ensures Step(s, SetPayments(ps)) == PaymentState(ps, s.categories, s.isLoading)
    ensures Step(s, SetCategories(cs)) == PaymentState(s.payments, cs, s.isLoading)
    ensures Step(s, SetLoading(b)) == PaymentState(s.payments, s.categories, b)
  {
  }

  /** Deleting by the id of a payment just added leaves exactly the earlier
      payments that carry another id: the new one is gone again. */
  lemma AddThenDeletePayment(s: PaymentState, p: Payment)
    ensures Step(Step(s, AddPayment(p)), DeletePayment(p.id)).payments
         == RemoveById(s.payments, PaymentId, p.id)
  {
    var keep := KeyIsNot(PaymentId, p.id);
    FilterAppend(s.payments, [p], keep);
    assert keep(p) == (PaymentId(p) != p.id);
    assert Filter([p], keep) == [];
    assert Step(s, AddPayment(p)).payments == s.payments + [p];
    assert Step(Step(s, AddPayment(p)), DeletePayment(p.id)).payments == Filter(s.payments + [p], keep);
  }

  /** Dispatching one `AddPayment` per element of `ps` appends `ps`, in order,
      and leaves the categories and the loading flag alone. */
  lemma {:induction false} ReplayAddPayments(s: PaymentState, ps: seq<Payment>)
    ensures Replay(s, AddPayments(ps)).payments == s.payments + ps
    ensures Replay(s, AddPayments(ps)).categories == s.categories
    ensures Replay(s, AddPayments(ps)).isLoading == s.isLoading
    decreases |ps|
  {
    if ps != [] {
      var s1 := s.(payments := s.payments + [ps[0]]);
      var acts := AddPayments(ps);
      assert acts[0] == AddPayment(ps[0]) && acts[1..] == AddPayments(ps[1..]);
      assert Replay(s, acts) == Replay(s1, AddPayments(ps[1..]));
      ReplayAddPayments(s1, ps[1..]);
      assert s.payments + [ps[0]] + ps[1..] == s.payments + ps;
    }
  }

  /** The built-in categories: eight of them, ids "1" to "8", none repeated,
      the first five for expenses and the last three for income. */
  lemma InitialStateShape()
    ensures InitialState.payments == [] && !InitialState.isLoading
    ensures |InitialState.categories| == 8
    ensures forall i, j :: 0 <= i < j < 8 ==> InitialState.categories[i].id != InitialState.categories[j].id
    ensures forall i :: 0 <= i < 5 ==> InitialState.categories[i].kind == Expense
    ensures forall i :: 5 <= i < 8 ==> InitialState.categories[i].kind == Income
  {
  }
}
