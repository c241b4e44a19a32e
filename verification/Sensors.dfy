/** The twelve sensors, the names their switches go by and the order they are registered in. */
module Sensors {
  import opened Wrappers
  import opened Config

  datatype Sensor =
    | Psi | Cpu | Interrupts | Softirqs | Memory | Disk | Network | Tegrastats | Thermal | CpuThrottle | Cpufreq | Gpu
  {
    function Name(): string {
      match this
      case Psi => "psi"
      case Cpu => "cpu"
      case Interrupts => "interrupts"
      case Softirqs => "softirqs"
      case Memory => "memory"
      case Disk => "disk"
      case Network => "network"
      case Tegrastats => "tegrastats"
      case Thermal => "thermal"
      case CpuThrottle => "cpu_throttle"
      case Cpufreq => "cpufreq"
      case Gpu => "gpu"
    }

    /** The `every_ticks` of the registration. */
    function Period(): (p: nat)
      ensures 1 <= p <= 12
    {
      match this
      case Psi => 1
      case Cpu => 2
      case Interrupts => 3
      case Softirqs => 4
      case Memory => 5
      case Disk => 6
      case Network => 7
      case Tegrastats => 8
      case Thermal => 9
      case CpuThrottle => 10
      case Cpufreq => 11
      case Gpu => 12
    }
  }

  predicate IsOn(config: AgentConfig, sensor: Sensor) {
    IsSensorEnabled(config, sensor.Name())
  }

  /** The sensor a switch belongs to: reading names undoes writing them. */
  function SensorNamed(name: string): Option<Sensor> {
    match name
    case "psi" => Some(Psi)
    case "cpu" => Some(Cpu)
    case "interrupts" => Some(Interrupts)
    case "softirqs" => Some(Softirqs)
    case "memory" => Some(Memory)
    case "disk" => Some(Disk)
    case "network" => Some(Network)
    case "tegrastats" => Some(Tegrastats)
    case "thermal" => Some(Thermal)
    case "cpu_throttle" => Some(CpuThrottle)
    case "cpufreq" => Some(Cpufreq)
    case "gpu" => Some(Gpu)
    case _ => None
  }

  lemma SensorNamesAreRead(s: Sensor)
    ensures SensorNamed(s.Name()) == Some(s)
  {
  }
}
