/** The top-level page state machine: which view is shown, the draft carried
    from slot selection to checkout, the last confirmed booking, and the
    admin login. */
module App {
  import opened Types
  import Store

  /** The six views, plus any other name a caller casts to a view; such a
      view shows no page. */
  datatype View =
    | HomeView
    | BookingView
    | CheckoutView
    | ConfirmationView
    | AdminLoginView
    | AdminDashboardView
    | Unknown(name: string)

  const KnownNames: set<string> := {"home", "booking", "checkout", "confirmation", "admin-login", "admin-dashboard"}

  /** `view as View`: the cast keeps the string, and only names outside the
      six known ones become `Unknown`. */
  function ViewOf(name: string): (v: View)
    ensures ViewName(v) == name
    ensures v.Unknown? <==> name !in KnownNames
  {
    if name == "home" then HomeView
    else if name == "booking" then BookingView
    else if name == "checkout" then CheckoutView
    else if name == "confirmation" then ConfirmationView
    else if name == "admin-login" then AdminLoginView
    else if name == "admin-dashboard" then AdminDashboardView
    else Unknown(name)
  }

  function ViewName(v: View): string {
    match v
    case HomeView => "home"
    case BookingView => "booking"
    case CheckoutView => "checkout"
    case ConfirmationView => "confirmation"
    case AdminLoginView => "admin-login"
    case AdminDashboardView => "admin-dashboard"
    case Unknown(name) => name
  }

  /** The other direction: a view value is the cast of its own name. */
  lemma ViewNamesRoundTrip(v: View)
    ensures (v.Unknown? ==> v.name !in KnownNames) ==> ViewOf(ViewName(v)) == v
  {
  }

  /** The mock credentials: exactly one pair, compared as typed. */
  predicate Authorized(user: string, pass: string)
    ensures Authorized(user, pass) ==> user == "admin" && pass == "hero123"
    ensures !Authorized(user, pass) ==> user != "admin" || pass != "hero123"
  {
    user == "admin" && pass == "hero123"
  }

  class App {
    var currentView: View
    var bookingDraft: Option<Draft>
    var confirmedBooking: Option<Booking>
    var adminUser: string
    var adminPass: string
    const store: Store.BookingStore

    /** The home view, an empty draft, nothing confirmed, empty login
        fields. */
    constructor(store: Store.BookingStore)
      ensures this.store == store
      ensures currentView == HomeView && bookingDraft == None && confirmedBooking == None
      ensures adminUser == "" && adminPass == ""
    {
      this.store := store;
      currentView := HomeView;
      bookingDraft := None;
      confirmedBooking := None;
      adminUser := "";
      adminPass := "";
    }

    /** The confirmation page is drawn only in the confirmation view and only
        with a confirmed booking. */
    predicate ShowsConfirmation()
      reads this
      ensures ShowsConfirmation() ==> currentView == ConfirmationView && confirmedBooking.Some?
    {
      currentView == ConfirmationView && confirmedBooking.Some?
    }

    /** `handleNavigate`: `contact` scrolls to the footer and keeps the view;
        any other name becomes the view. */
    method HandleNavigate(name: string)
      modifies this`currentView
      ensures name == "contact" ==> currentView == old(currentView)
      ensures name != "contact" ==> currentView == ViewOf(name)
    {
      if name == "contact" {
        return;
      }
      currentView := ViewOf(name);
    }

    method StartBooking()
      modifies this`currentView
      ensures currentView == BookingView
    {
      currentView := BookingView;
    }

    /** `proceedToCheckout`: keep the draft and show checkout. */
    method ProceedToCheckout(details: Option<Draft>)
      modifies this`bookingDraft, this`currentView
      ensures bookingDraft == details && currentView == CheckoutView
    {
      bookingDraft := details;
      currentView := CheckoutView;
    }

    /** `handleBookingConfirm`: the booking is stored once, at the end, and
        becomes the confirmed one on the confirmation page. */
    method HandleBookingConfirm(booking: Booking)
      modifies store, this`confirmedBooking, this`currentView
      ensures store.bookings == old(store.bookings) + [booking]
      ensures confirmedBooking == Some(booking) && currentView == ConfirmationView
      ensures ShowsConfirmation()
    {
      store.SaveBooking(booking);
      confirmedBooking := Some(booking);
      currentView := ConfirmationView;
    }

    method SetAdminUser(value: string)
      modifies this`adminUser
      ensures adminUser == value
    {
      adminUser := value;
    }

    method SetAdminPass(value: string)
      modifies this`adminPass
      ensures adminPass == value
    {
      adminPass := value;
    }

    /** `handleAdminLogin`: the dashboard opens only for the mock
        credentials; otherwise the login view stays. */
    method HandleAdminLogin()
      modifies this`currentView
      ensures Authorized(adminUser, adminPass) ==> currentView == AdminDashboardView
      ensures !Authorized(adminUser, adminPass) ==> currentView == old(currentView)
    {
      if adminUser == "admin" && adminPass == "hero123" {
        currentView := AdminDashboardView;
      }
    }

    /** Back to the site from the login, logout from the dashboard, back
        from slot selection, and home from the confirmation. */
    method GoHome()
      modifies this`currentView
      ensures currentView == HomeView
    {
      currentView := HomeView;
    }

    /** Back from checkout to slot selection; the draft is kept. */
    method BackToBooking()
      modifies this`currentView
      ensures currentView == BookingView
    {
      currentView := BookingView;
    }
  }

  /** A whole visit: start booking, proceed with a draft, confirm. The store
      then holds that one booking and the confirmation page is shown. */
  method BookOnce(draft: Draft, booking: Booking) returns (app: App)
    ensures app.store.bookings == [booking] && app.bookingDraft == Some(draft)
    ensures app.ShowsConfirmation() && app.confirmedBooking == Some(booking)
  {
    var store := new Store.BookingStore();
    app := new App(store);
    app.StartBooking();
    app.ProceedToCheckout(Some(draft));
    app.HandleBookingConfirm(booking);
  }

  /** Wrong credentials leave a visitor on the login view. */
  method RejectedLogin(user: string, pass: string) returns (app: App)
    requires !Authorized(user, pass)
    ensures app.currentView == AdminLoginView
  {
    var store := new Store.BookingStore();
    app := new App(store);
    app.HandleNavigate("admin-login");
    app.SetAdminUser(user);
    app.SetAdminPass(pass);
    app.HandleAdminLogin();
  }
}
