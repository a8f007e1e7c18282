/**
 * The application shell: which page is current, the login/register dialog, the guard that keeps
 * signed-out users on the home page, and what gets drawn for each page name.
 */
module App {

  /** The screens the shell can draw in its main area. */
  datatype Screen =
    | DashboardScreen | WeatherScreen | SoilHealthScreen | SoilMoistureScreen | MotorScreen
    | PlantHealthScreen | PriceCardScreen | MoreScreen | LoginScreen | RegisterScreen | HomeScreen

  /** The page names `renderPage` knows; anything else draws the home screen. */
  const KnownPages: set<string> :=
    {"dashboard", "weather", "soilHealth", "soilMoisture", "Motor", "planHealth", "PriceCard", "more", "login", "register"}

  /** `renderPage()`'s switch on the current page name. */
  function RenderPage(page: string): (s: Screen)
    ensures page == "dashboard" ==> s == DashboardScreen
    ensures page == "weather" ==> s == WeatherScreen
    ensures page == "soilHealth" ==> s == SoilHealthScreen
    ensures page == "soilMoisture" ==> s == SoilMoistureScreen
    ensures page == "Motor" ==> s == MotorScreen
    ensures page == "planHealth" ==> s == PlantHealthScreen
    ensures page == "PriceCard" ==> s == PriceCardScreen
    ensures page == "more" ==> s == MoreScreen
    ensures page == "login" ==> s == LoginScreen
    ensures page == "register" ==> s == RegisterScreen
    ensures s == HomeScreen <==> page !in KnownPages
  {
    match page
    case "dashboard" => DashboardScreen
    case "weather" => WeatherScreen
    case "soilHealth" => SoilHealthScreen
    case "soilMoisture" => SoilMoistureScreen
    case "Motor" => MotorScreen
    case "planHealth" => PlantHealthScreen
    case "PriceCard" => PriceCardScreen
    case "more" => MoreScreen
    case "login" => LoginScreen
    case "register" => RegisterScreen
    case _ => HomeScreen
  }

  /** The page name that draws each screen other than home. */
  function PageOf(s: Screen): string {
    match s
    case DashboardScreen => "dashboard"
    case WeatherScreen => "weather"
    case SoilHealthScreen => "soilHealth"
    case SoilMoistureScreen => "soilMoisture"
    case MotorScreen => "Motor"
    case PlantHealthScreen => "planHealth"
    case PriceCardScreen => "PriceCard"
    case MoreScreen => "more"
    case LoginScreen => "login"
    case RegisterScreen => "register"
    case HomeScreen => "home"
  }

  /** Each screen other than home is drawn by exactly one page name. */
  lemma OnePagePerScreen(page: string)
    ensures page in KnownPages ==> PageOf(RenderPage(page)) == page
    ensures RenderPage(page) != HomeScreen ==> RenderPage(PageOf(RenderPage(page))) == RenderPage(page)
  {
  }

  /** The plant-health links of the home page and the navbar send names the switch does not know, so they draw the home screen. */
  lemma PlantHealthLinksDrawHome()
    ensures RenderPage("plantHealth") == HomeScreen
    ensures RenderPage("PlantHealth") == HomeScreen
    ensures forall page :: RenderPage(page) == PlantHealthScreen <==> page == "planHealth"
  {
    assert "plantHealth" !in KnownPages;
    assert "PlantHealth" !in KnownPages;
  }

  /** The navbar is shown to signed-in users on every page but home, login and register. */
  predicate ShowNavbar(isAuthenticated: bool, page: string) {
    isAuthenticated && page != "home" && page != "login" && page != "register"
  }

  /** The footer is shown on the home page and to signed-in users. */
  predicate ShowFooter(isAuthenticated: bool, page: string) {
    page == "home" || isAuthenticated
  }

  /** What `AppContent` draws. */
  datatype View =
    | LoadingView                                    // the session is still being restored
    | AuthPageView(screen: Screen)                   // a bare login or register page
    | GuestView(modalOpen: bool)                     // the home screen, possibly under the dialog
    | AppView(screen: Screen, navbar: bool, footer: bool, modalOpen: bool)

  function Render(loading: bool, isAuthenticated: bool, page: string, isModalOpen: bool): (v: View)
    ensures loading <==> v == LoadingView
    ensures !loading && !isAuthenticated && (page == "login" || page == "register") ==>
      v == AuthPageView(RenderPage(page))
    ensures !loading && !isAuthenticated && page !in {"home", "login", "register"} ==> v == GuestView(isModalOpen)
    ensures v.AppView? <==> !loading && (isAuthenticated || page == "home")
    ensures v.AppView? ==> v.screen == RenderPage(page) && v.modalOpen == isModalOpen
    ensures v.AppView? ==> (v.navbar <==> ShowNavbar(isAuthenticated, page)) && (v.footer <==> ShowFooter(isAuthenticated, page))
  {
    if loading then LoadingView
    else if !isAuthenticated && (page == "login" || page == "register") then AuthPageView(RenderPage(page))
    else if !isAuthenticated && page != "home" then GuestView(isModalOpen)
    else AppView(RenderPage(page), ShowNavbar(isAuthenticated, page), ShowFooter(isAuthenticated, page), isModalOpen)
  }

  /** The screens a signed-out visitor may see. */
  predicate PublicScreen(s: Screen) {
    s == HomeScreen || s == LoginScreen || s == RegisterScreen
  }

  /** A signed-out visitor never sees a protected screen, and never sees the navbar. */
  lemma SignedOutSeesOnlyPublicScreens(page: string, isModalOpen: bool)
    ensures var v := Render(false, false, page, isModalOpen);
      && (v.AuthPageView? ==> PublicScreen(v.screen))
      && (v.AppView? ==> PublicScreen(v.screen) && !v.navbar)
  {
  }

  class AppState {
    var currentPage: string
    var isModalOpen: bool
    var modalType: string

    constructor ()
      ensures currentPage == "home" && !isModalOpen && modalType == "login"
    {
      currentPage := "home";
      isModalOpen := false;
      modalType := "login";
    }

    /** `navigateTo(page)`: a signed-out visitor asking for anything but home gets the login dialog instead. */
    method NavigateTo(page: string, isAuthenticated: bool)
      modifies this
      ensures page != "home" && !isAuthenticated ==>
        isModalOpen && modalType == "login" && currentPage == old(currentPage)
      ensures page == "home" || isAuthenticated ==>
        currentPage == page && isModalOpen == old(isModalOpen) && modalType == old(modalType)
    {
      if page != "home" && !isAuthenticated {
        modalType := "login";
        isModalOpen := true;
        return;
      }
      currentPage := page;
    }

    /** `openModal(type)` */
    method OpenModal(kind: string)
      modifies this
      ensures modalType == kind && isModalOpen && currentPage == old(currentPage)
    {
      modalType := kind;
      isModalOpen := true;
    }

    /** `closeModal()` */
    method CloseModal()
      modifies this
      ensures !isModalOpen && modalType == old(modalType) && currentPage == old(currentPage)
    {
      isModalOpen := false;
    }

    /** `handleAuthSuccess()`: close the dialog and go to the dashboard. */
    method HandleAuthSuccess()
      modifies this
      ensures !isModalOpen && currentPage == "dashboard" && modalType == old(modalType)
    {
      CloseModal();
      currentPage := "dashboard";
    }

    /** The redirect effect: once the session is known to be signed out, any page but home falls back to home. */
    method RedirectEffect(isAuthenticated: bool, loading: bool)
      modifies this
      ensures !loading && !isAuthenticated ==> currentPage == "home"
      ensures loading || isAuthenticated ==> currentPage == old(currentPage)
      ensures isModalOpen == old(isModalOpen) && modalType == old(modalType)
    {
      if !loading && !isAuthenticated && currentPage != "home" {
        currentPage := "home";
      }
    }
  }

  /** A signed-out visitor who clicks any link and lets the redirect run stays on home, looking at the home screen. */
  method SignedOutNavigation(app: AppState, page: string) returns (v: View)
    modifies app
    ensures app.currentPage == "home"
    ensures v.AppView? && v.screen == HomeScreen && !v.navbar
    ensures page != "home" ==> app.isModalOpen && app.modalType == "login"
  {
    app.NavigateTo(page, false);
    app.RedirectEffect(false, false);
    v := Render(false, false, app.currentPage, app.isModalOpen);
  }
}
