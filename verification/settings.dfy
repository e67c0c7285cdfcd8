/**
 * The deployment constants the executor reads from settings.py, at their
 * default values (the environment overrides are not modelled).
 */
module Settings {
  /** Default address of the orchestrator (`OSM_IP`). */
  const OsmIp: string := "217.172.11.180"

  /** The FaaS VIM runs on the orchestrator host (`OSM_FAAS_IP`). */
  const OsmFaasIp: string := OsmIp

  /** Port of the FaaS VIM polling service (`OSM_FAAS_PORT`). */
  const OsmFaasPort: string := "5001"

  /** Base URL of the orchestrator's northbound API (`OSM_COMPONENTS["NBI-API"]`). */
  const NbiApi: string := "https://" + OsmIp + ":9999"

  /** Name prefix of the descriptors of vCDN network services (`vCDN_NSD_PREFIX`). */
  const VcdnNsdPrefix: string := "faas_vm_vCDN"

  /** Default address of the vDNS (`VDNS_IP`). */
  const VdnsIp: string := "192.168.111.20"

  /** Port of the vDNS REST service (`VDNS_PORT`). */
  const VdnsPort: string := "9999"
}
